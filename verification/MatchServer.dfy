/** The server itself: its fields, the fixed table of slots, and the operations that change them
    in place (src/server_state.c, src/server_commands.c, src/game.c, src/server.c). Every method
    is proved against the function that says what it does. */
module MatchServer {
  import opened Common
  import opened Text
  import opened Protocol
  import opened Game
  import opened Chase
  import opened ServerState
  import opened ServerCommands
  import opened ServerRuns
  import opened Pairing
  import opened Elimination
  import opened Mail
  import opened RunInvariant
  import opened MatchRuns

  /** Emptying a slot removes exactly it from the connected ones; changing another field does not. */
  lemma ConnectedAfter(ps: Table, i: Slot, p: Player)
    requires ps[i].connected
    ensures Connected(ps[i := p]) == if p.connected then Connected(ps) else Connected(ps) - {i as int}
  {
  }

  /** The result of a match for one player, framed. */
  function ResultText(p: Player): string {
    if !p.connected || !p.registered then ""
    else if !p.admitted then "GAME_OVER\n"
    else if p.alive || p.waiting then "GAME_OVER WIN\n"
    else "GAME_OVER LOSE\n"
  }

  /** The line with the result of a registered player, queued. */
  lemma ResultTold(p: Player, line: string)
    requires p.connected && p.registered
    requires line == if IsWinner(p) then "GAME_OVER WIN" else if IsAdmitted(p) then "GAME_OVER LOSE" else "GAME_OVER"
    ensures EnqueuedAll(p.outbuf, GameOverLines(p)).Some? <==> Enqueued(p.outbuf, line).Some?
    ensures Enqueued(p.outbuf, line).Some? ==>
              Told(p, line) == DeliveredAll(p, GameOverLines(p)) && Told(p, line).outbuf == p.outbuf + ResultText(p)
    ensures Enqueued(p.outbuf, line).None? ==> Told(p, line) == p
  {
    EnqueuedAllOne(p.outbuf, line);
    assert GameOverLines(p) == [line] && ResultText(p) == Frame(line);
    hide EnqueuedAll, GameOverLines, ResultText;
  }

  lemma NoResult(p: Player)
    requires !p.connected || !p.registered
    ensures EnqueuedAll(p.outbuf, GameOverLines(p)).Some? && DeliveredAll(p, GameOverLines(p)) == p
    ensures p.outbuf == p.outbuf + ResultText(p)
  {
    EnqueuedNothing(p.outbuf);
    assert p == p.(outbuf := p.outbuf);
    hide EnqueuedAll;
  }

  class Match {
    const players: array<Player>
    var nextId: int
    var roundNo: int
    var phase: Phase
    var joinDeadline: int
    var setupDeadline: int
    var roundDeadline: int

    ghost predicate Valid() { players.Length == MAX_PLAYERS }

    ghost function State(): Server
      requires Valid()
      reads this, players
    {
      Server(players[..], nextId, roundNo, phase, joinDeadline, setupDeadline, roundDeadline)
    }

    constructor ()
      ensures Valid() && fresh(players) && State() == EmptyServer()
    {
      players := new Player[MAX_PLAYERS](_ => UNUSED_SLOT);
      nextId, roundNo, phase := 1, 0, LobbyOpen;
      joinDeadline, setupDeadline, roundDeadline := 0, 0, 0;
    }

    // -------------------------------------------------------------- lines for one slot

    method QueueLine(i: Slot, line: string) returns (ok: bool)
      requires Valid()
      modifies players
      ensures ok == Enqueued(old(players[i]).outbuf, line).Some?
      ensures State() == WithPlayer(old(State()), i, Told(old(players[i]), line))
    {
      match Enqueued(players[i].outbuf, line) {
        case None => ok := false;
        case Some(outbuf) =>
          players[i] := players[i].(outbuf := outbuf);
          ok := true;
      }
    }

    /** `drop_player` without an announcement. */
    method ClearSlot(i: Slot)
      requires Valid()
      modifies players
      ensures State() == Cleared(old(State()), i)
    {
      if players[i].connected {
        players[i] := EMPTY_SLOT;
      }
    }

    // -------------------------------------------------------------- snapshots

    /** Since `from`, the lines `sent` were queued for slot `i`, and nothing else happened. */
    ghost predicate Sent(from: Server, i: Slot, sent: seq<string>)
      requires Valid()
      reads this, players
    {
      var p := from.players[i];
      && EnqueuedAll(p.outbuf, sent).Some?
      && State() == WithPlayer(from, i, p.(outbuf := EnqueuedAll(p.outbuf, sent).value))
    }

    /** Queues one more line of `all`, of which `sent` went before. */
    method QueueNext(i: Slot, line: string, ghost from: Server, ghost sent: seq<string>, ghost all: seq<string>)
      returns (ok: bool)
      requires Valid() && Sent(from, i, sent) && sent + [line] <= all
      modifies players
      ensures ok ==> Sent(from, i, sent + [line])
      ensures !ok ==>
        && EnqueuedAll(from.players[i].outbuf, all).None?
        && State() == WithPlayer(from, i, from.players[i].(outbuf := players[i].outbuf))
    {
      ghost var p := from.players[i];
      ghost var q := players[i];
      assert q == p.(outbuf := q.outbuf);
      EnqueuedAllConcat(p.outbuf, sent, [line]);
      EnqueuedAllOne(q.outbuf, line);
      ok := QueueLine(i, line);
      hide EnqueuedAll;
      if ok {
        assert State() == WithPlayer(from, i, p.(outbuf := players[i].outbuf));
      } else {
        assert all == (sent + [line]) + all[|sent| + 1..];
        EnqueuedAllConcat(p.outbuf, sent + [line], all[|sent| + 1..]);
        assert State() == WithPlayer(from, i, q);
      }
    }

    method QueueGameState(i: Slot, now: nat) returns (ok: bool)
      requires Valid()
      modifies players
      ensures ok == EnqueuedAll(old(players[i]).outbuf, SnapshotLines(old(State()), old(players[i]), now)).Some?
      ensures ok ==>
        State() == WithPlayer(old(State()), i,
                              DeliveredAll(old(players[i]), SnapshotLines(old(State()), old(players[i]), now)))
      ensures !ok ==> State() == WithPlayer(old(State()), i, old(players[i]).(outbuf := players[i].outbuf))
    {
      hide HeaderLines, PlayerLines, EnqueuedAll;
      ghost var from := State();
      ghost var dst := players[i];
      ghost var header := HeaderLines(from, dst, now);
      ghost var shown := PlayerLines(from.players);
      ghost var all := SnapshotLines(from, dst, now);
      EnqueuedNothing(dst.outbuf);
      assert State() == WithPlayer(from, i, dst.(outbuf := dst.outbuf));
      assert all == ["STATE_BEGIN"] + header + shown + ["STATE_END"];
      ok := QueueNext(i, "STATE_BEGIN", from, [], all);
      if !ok { return; }
      assert [] + ["STATE_BEGIN"] == ["STATE_BEGIN"];
      ok := QueueHeader(i, now, from, all);
      if !ok { return; }
      ok := QueuePlayers(i, from, ["STATE_BEGIN"] + header, all);
      if !ok { return; }
      ok := QueueNext(i, "STATE_END", from, ["STATE_BEGIN"] + header + shown, all);
    }

    method QueuePlayers(i: Slot, ghost from: Server, ghost before: seq<string>, ghost all: seq<string>) returns (ok: bool)
      requires Valid() && Sent(from, i, before) && before + PlayerLines(from.players) <= all
      modifies players
      ensures ok ==> Sent(from, i, before + PlayerLines(from.players))
      ensures !ok ==>
        && EnqueuedAll(from.players[i].outbuf, all).None?
        && State() == WithPlayer(from, i, from.players[i].(outbuf := players[i].outbuf))
    {
      hide PlayerLines, EnqueuedAll, PlayerLine;
      ghost var sent := before;
      assert PlayerLines(from.players[..0]) == [] by { NoPlayerLines(from.players[..0]); }
      for k := 0 to MAX_PLAYERS
        invariant Sent(from, i, sent)
        invariant sent == before + PlayerLines(from.players[..k])
      {
        var p := players[k];
        PlayerLinesPrefix(from.players, k);
        PlayerLinesPrefix(from.players, k + 1);
        if IsAdmitted(p) {
          SameLine(from.players[k], p);
          assert sent + [PlayerLine(p)] == before + PlayerLines(from.players[..k + 1]);
          ok := QueueNext(i, PlayerLine(p), from, sent, all);
          if !ok { return; }
          sent := sent + [PlayerLine(p)];
        }
      }
      assert from.players[..MAX_PLAYERS] == from.players;
      ok := true;
    }

    method QueueHeader(i: Slot, now: nat, ghost from: Server, ghost all: seq<string>) returns (ok: bool)
      requires Valid() && Sent(from, i, ["STATE_BEGIN"])
      requires ["STATE_BEGIN"] + HeaderLines(from, from.players[i], now) <= all
      modifies players
      ensures ok ==> Sent(from, i, ["STATE_BEGIN"] + HeaderLines(from, from.players[i], now))
      ensures !ok ==>
        && EnqueuedAll(from.players[i].outbuf, all).None?
        && State() == WithPlayer(from, i, from.players[i].(outbuf := players[i].outbuf))
    {
      hide EnqueuedAll, LobbyOpenLine, SetupOpenLine, RoundStartLine, SecondsLeft;
      ghost var sent := ["STATE_BEGIN"];
      match phase {
        case LobbyOpen =>
          if joinDeadline == 0 {
            ok := QueueNext(i, "LOBBY_WAITING", from, sent, all);
          } else {
            ok := QueueNext(i, LobbyOpenLine(SecondsLeft(joinDeadline, now)), from, sent, all);
          }
        case Setup =>
          ok := QueueTwo(i, "LOBBY_CLOSED", SetupOpenLine(SecondsLeft(setupDeadline, now)), from, sent, all);
        case RoundActive =>
          ok := QueueTwo(i, "LOBBY_CLOSED", RoundStartLine(roundNo, SecondsLeft(roundDeadline, now)), from, sent, all);
        case Repick =>
          ok := QueueTwo(i, "LOBBY_CLOSED", "REPICK_START", from, sent, all);
        case GameOver =>
          var p := players[i];
          if !p.connected || !p.registered {
            assert sent + [] == sent;
            ok := true;
          } else if IsWinner(p) {
            ok := QueueNext(i, "GAME_OVER WIN", from, sent, all);
          } else if IsAdmitted(p) {
            ok := QueueNext(i, "GAME_OVER LOSE", from, sent, all);
          } else {
            ok := QueueNext(i, "GAME_OVER", from, sent, all);
          }
      }
    }

    method QueueTwo(i: Slot, a: string, b: string, ghost from: Server, ghost sent: seq<string>, ghost all: seq<string>)
      returns (ok: bool)
      requires Valid() && Sent(from, i, sent) && sent + [a, b] <= all
      modifies players
      ensures ok ==> Sent(from, i, sent + [a, b])
      ensures !ok ==>
        && EnqueuedAll(from.players[i].outbuf, all).None?
        && State() == WithPlayer(from, i, from.players[i].(outbuf := players[i].outbuf))
    {
      hide EnqueuedAll;
      assert sent + [a, b] == (sent + [a]) + [b];
      ok := QueueNext(i, a, from, sent, all);
      if ok {
        ok := QueueNext(i, b, from, sent + [a], all);
      }
    }

    // -------------------------------------------------------------- the recursion

    /** The first pass of a broadcast: who can take the line gets it; the others are returned. */
    method SendToAll(line: string) returns (toDrop: seq<Slot>)
      requires Valid()
      modifies players
      ensures forall k: Slot :: players[k] == SentTo(old(players[k]), line)
      ensures forall k: Slot :: k in toDrop <==> Refuses(old(players[k]), line)
    {
      hide Enqueued;
      toDrop := [];
      for i := 0 to MAX_PLAYERS
        invariant forall k :: i <= k < MAX_PLAYERS ==> players[k] == old(players[k])
        invariant forall k :: 0 <= k < i ==> players[k] == SentTo(old(players[k]), line)
        invariant forall k: Slot :: k in toDrop <==> k < i && Refuses(old(players[k]), line)
      {
        if players[i].connected {
          match Enqueued(players[i].outbuf, line) {
            case Some(outbuf) => players[i] := players[i].(outbuf := outbuf);
            case None => toDrop := toDrop + [i];
          }
        }
      }
    }

    /** The second pass: those slots are cleared. */
    method DropAll(toDrop: seq<Slot>)
      requires Valid() && forall j :: 0 <= j < |toDrop| ==> players[toDrop[j]].connected
      modifies players
      ensures forall k: Slot :: players[k] == if k in toDrop then EMPTY_SLOT else old(players[k])
    {
      for j := 0 to |toDrop|
        invariant forall k: Slot :: players[k] == if k in toDrop[..j] then EMPTY_SLOT else old(players[k])
      {
        ClearSlot(toDrop[j]);
        assert toDrop[..j + 1] == toDrop[..j] + [toDrop[j]];
      }
      assert toDrop[..|toDrop|] == toDrop;
    }

    method QueueBroadcast(line: string, now: nat)
      requires Valid()
      modifies this, players
      ensures State() == Broadcast(old(State()), line, now)
      decreases Connected(State().players), 1, 0
    {
      hide Enqueued, Reevaluate;
      ghost var before := State();
      ghost var after := before.(players := MapConnected(before.players, p => Delivered(p, line)));
      var toDrop := SendToAll(line);
      assert forall j :: 0 <= j < |toDrop| ==> toDrop[j] in toDrop && Refuses(before.players[toDrop[j]], line);
      assert toDrop == [] ==> forall k: Slot :: !Refuses(before.players[k], line);
      DropAll(toDrop);
      forall k: Slot
        ensures players[k] == after.players[k]
      {
        DroppedOrSent(before.players[k], line);
      }
      assert players[..] == after.players;
      LossIffRefusal(before.players, line);
      if |toDrop| > 0 {
        assert Refuses(before.players[toDrop[0]], line);
        ReevaluateState(now);
      }
    }

    /** One turn of the state broadcast: the slot gets its snapshot or is dropped. */
    method SendSnapshot(i: Slot, now: nat) returns (ok: bool)
      requires Valid() && IsRegistered(players[i])
      modifies players
      ensures State() == WithPlayer(old(State()), i, DeliveredAll(old(players[i]), SnapshotLines(old(State()), old(players[i]), now)))
      ensures Connected(State().players) == if ok then Connected(old(State()).players)
                                            else Connected(old(State()).players) - {i as int}
    {
      hide SnapshotLines, EnqueuedAll, WithPlayer, Connected;
      ghost var m := State();
      ok := QueueGameState(i, now);
      ghost var p := DeliveredAll(m.players[i], SnapshotLines(m, m.players[i], now));
      ConnectedAfter(m.players, i, p);
      WithPlayerTwice(m, i, m.players[i].(outbuf := players[i].outbuf), EMPTY_SLOT);
      WithPlayerTwice(m, i, p, p);
      assert p.connected <==> ok;
      if !ok {
        ClearSlot(i);
        assert State() == WithPlayer(m, i, EMPTY_SLOT);
      }
    }

    method BroadcastState(now: nat)
      requires Valid()
      modifies this, players
      ensures State() == BroadcastGameState(old(State()), now)
    {
      hide SnapshotLines, EnqueuedAll, DeliveredAll, WithPlayer;
      var dropped := false;
      ghost var before := State();
      for i := 0 to MAX_PLAYERS
        modifies players
        invariant State() == SnapshotsUpTo(before, i, now)
        invariant Connected(State().players) <= Connected(before.players)
        invariant dropped <==> Connected(State().players) != Connected(before.players)
      {
        if IsRegistered(players[i]) {
          assert i as int in Connected(State().players);
          var ok := SendSnapshot(i, now);
          if !ok {
            dropped := true;
          }
        }
      }
      if dropped {
        ReevaluateState(now);
      }
    }

    method BroadcastAllPositions(now: nat)
      requires Valid()
      modifies this, players
      ensures State() == BroadcastPositions(old(State()), now)
      decreases Connected(State().players), 3, 0
    {
      hide Broadcast, PlayerLine;
      ghost var before := State();
      for i := 0 to MAX_PLAYERS
        invariant State() == PositionsUpTo(before, i, now)
        invariant Connected(State().players) <= Connected(before.players)
      {
        if IsAdmitted(players[i]) {
          QueueBroadcast(PlayerLine(players[i]), now);
        }
      }
    }

    /** `start_round` */
    method BeginRound(now: nat)
      requires Valid()
      modifies this, players
      ensures State() == StartRound(old(State()), now)
    {
      phase := RoundActive;
      roundNo := roundNo + 1;
      roundDeadline := now + ROUND_SECONDS;
      for i := 0 to MAX_PLAYERS
        modifies players
        invariant forall k :: i <= k < MAX_PLAYERS ==> players[k] == old(players[k])
        invariant forall k :: 0 <= k < i ==> players[k] == StartedPlayer(old(players[k]))
      {
        players[i] := players[i].(inRound := false, repickSubmitted := false, repickChoice := '\0');
        if IsAdmitted(players[i]) && (players[i].alive || players[i].waiting) {
          if players[i].waiting {
            players[i] := players[i].(alive := true, waiting := false);
          }
          players[i] := players[i].(inRound := true);
        }
      }
    }

    method StartTheRound(now: nat)
      requires Valid()
      modifies this, players
      ensures State() == StartActiveRound(old(State()), now)
      decreases Connected(State().players), 4, 0
    {
      hide Broadcast, PositionsUpTo;
      ghost var before := State();
      BeginRound(now);
      assert Connected(State().players) == Connected(before.players);
      QueueBroadcast(RoundStartLine(roundNo, ROUND_SECONDS), now);
      BroadcastAllPositions(now);
    }

    method FinishTheRepicks(now: nat)
      requires Valid()
      modifies this, players
      ensures State() == FinishRepicks(old(State()), now)
      decreases Connected(State().players), 5, 0
    {
      hide Broadcast, PositionsUpTo, StartActiveRound;
      ghost var before := State();
      for i := 0 to MAX_PLAYERS
        modifies players
        invariant forall k :: i <= k < MAX_PLAYERS ==> players[k] == before.players[k]
        invariant forall k :: 0 <= k < i ==>
          players[k] == if before.players[k].connected then RepickedPlayer(before.players[k]) else before.players[k]
      {
        if IsAlive(players[i]) {
          players[i] := players[i].(choice := players[i].repickChoice, repickSubmitted := false, repickChoice := '\0');
        }
      }
      assert State() == before.(players := MapConnected(before.players, RepickedPlayer));
      assert Connected(State().players) == Connected(before.players);
      QueueBroadcast("REPICK_DONE", now);
      BroadcastAllPositions(now);
      StartTheRound(now);
    }

    /** `queue_game_over_result` */
    method QueueGameOverResult(i: Slot) returns (ok: bool)
      requires Valid()
      modifies players
      ensures ok == EnqueuedAll(old(players[i]).outbuf, GameOverLines(old(players[i]))).Some?
      ensures ok ==> State() == WithPlayer(old(State()), i, DeliveredAll(old(players[i]), GameOverLines(old(players[i]))))
      ensures !ok ==> State() == old(State())
      ensures ok ==> players[i].outbuf == old(players[i]).outbuf + ResultText(old(players[i]))
    {
      var p := players[i];
      if !p.connected || !p.registered {
        NoResult(p);
        hide EnqueuedAll, GameOverLines, DeliveredAll, ResultText;
        return true;
      }
      var line := if IsWinner(p) then "GAME_OVER WIN" else if IsAdmitted(p) then "GAME_OVER LOSE" else "GAME_OVER";
      ResultTold(p, line);
      hide EnqueuedAll, GameOverLines, DeliveredAll, ResultText, Told, Enqueued;
      ok := QueueLine(i, line);
    }

    method FinishMatch()
      requires Valid()
      modifies this, players
      ensures State() == EndGame(old(State()))
    {
      hide EnqueuedAll, GameOverLines;
      phase := GameOver;
      for i := 0 to MAX_PLAYERS
        modifies players
        invariant forall k :: i <= k < MAX_PLAYERS ==> players[k] == old(players[k])
        invariant forall k :: 0 <= k < i ==>
          var p := old(players[k]); players[k] == if p.connected then DeliveredAll(p, GameOverLines(p)) else p
      {
        ghost var m := State();
        if players[i].connected {
          var ok := QueueGameOverResult(i);
          if !ok {
            ClearSlot(i);
          }
          assert State() == WithPlayer(m, i, DeliveredAll(m.players[i], GameOverLines(m.players[i])));
        }
      }
    }

    /** `count_alive_choice_types`, written out a second time by the source. */
    method CountAliveChoiceTypes() returns (count: nat)
      requires Valid()
      ensures count == TypesAlive(State().players)
    {
      var hasR, hasP, hasS := 0, 0, 0;
      for i := 0 to MAX_PLAYERS
        invariant hasR == if HasType(players[..i], 'R') then 1 else 0
        invariant hasP == if HasType(players[..i], 'P') then 1 else 0
        invariant hasS == if HasType(players[..i], 'S') then 1 else 0
      {
        HasTypeNext(players[..], i);
        assert players[..][..i] == players[..i] && players[..][..i + 1] == players[..i + 1];
        if IsAlive(players[i]) {
          if players[i].choice == 'R' {
            hasR := 1;
          } else if players[i].choice == 'P' {
            hasP := 1;
          } else if players[i].choice == 'S' {
            hasS := 1;
          }
        }
      }
      assert players[..MAX_PLAYERS] == players[..];
      count := hasR + hasP + hasS;
    }

    method ReevaluateState(now: nat)
      requires Valid()
      modifies this, players
      ensures State() == Reevaluate(old(State()), now)
      decreases Connected(State().players), 6, 0
    {
      hide StartActiveRound, FinishRepicks, EndGame, CountIf, TypesAlive;
      match phase {
        case LobbyOpen =>
          var admitted := CountAdmitted(players);
          if admitted == 0 {
            joinDeadline := 0;
          }
        case Setup =>
          var admitted := CountAdmitted(players);
          if admitted < 2 {
            FinishMatch();
            return;
          }
          var ready := CheckAllAdmittedReady(players);
          if ready {
            StartTheRound(now);
          }
        case Repick =>
          var alive := CountAlive(players);
          if alive <= 1 {
            FinishMatch();
            return;
          }
          var done := CheckAllAliveRepicked(players);
          if done {
            FinishTheRepicks(now);
          }
        case RoundActive =>
          var alive := CountAlive(players);
          var types := CountAliveChoiceTypes();
          if alive <= 1 || types <= 1 {
            FinishMatch();
          }
        case GameOver =>
      }
    }

    // -------------------------------------------------------------- operations

    method DropPlayer(i: Slot, announce: bool, now: nat)
      requires Valid()
      modifies this, players
      ensures State() == Dropped(old(State()), i, announce, now)
    {
      hide Broadcast, BroadcastGameState;
      if !players[i].connected {
        return;
      }
      var name := players[i].name;
      var shouldAnnounce := announce && players[i].registered;
      ClearSlot(i);
      if shouldAnnounce {
        QueueBroadcast(LeftLine(name), now);
        BroadcastState(now);
      }
    }

    /** Gives a connection up and re-evaluates, without an announcement. */
    method GiveUp(i: Slot, now: nat)
      requires Valid()
      modifies this, players
      ensures State() == Reevaluate(Cleared(old(State()), i), now)
    {
      hide Reevaluate;
      ClearSlot(i);
      ReevaluateState(now);
    }

    method Refuse(i: Slot, now: nat)
      requires Valid()
      modifies this, players
      ensures State() == Refused(old(State()), i, now)
    {
      hide Reevaluate, Cleared;
      var ok := QueueLine(i, "ERROR lobby_closed");
      if !ok {
        assert State() == old(State());
        GiveUp(i, now);
      }
    }

    method MaybeAdmitPlayer(i: Slot, now: nat)
      requires Valid()
      modifies this, players
      ensures State() == MaybeAdmit(old(State()), i, now)
    {
      hide Broadcast, BroadcastGameState, Reevaluate, Cleared, Refused;
      var p := players[i];
      if !p.connected || !p.registered || p.admitted || !p.choiceChosen || !p.spawnChosen {
        return;
      }
      if phase != LobbyOpen {
        Refuse(i, now);
        return;
      }
      if joinDeadline == 0 {
        joinDeadline := now + JOIN_WINDOW_SECONDS;
        QueueBroadcast(LobbyOpenLine(JOIN_WINDOW_SECONDS), now);
      } else if now >= joinDeadline {
        Refuse(i, now);
        return;
      }
      ghost var s := State();
      players[i] := players[i].(admitted := true, waiting := true);
      ghost var marked := players[i];
      assert State() == WithPlayer(s, i, marked);
      WithPlayerTwice(s, i, marked, Told(marked, "JOINED_MATCH"));
      var ok := QueueLine(i, "JOINED_MATCH");
      if !ok {
        assert State() == WithPlayer(s, i, marked);
        GiveUp(i, now);
        return;
      }
      QueueBroadcast(JoinedLine(players[i].name), now);
      BroadcastState(now);
    }

    method QueueReset(i: Slot) returns (ok: bool)
      requires Valid()
      modifies players
      ensures ok == EnqueuedAll(old(players[i]).outbuf, RESET_LINES).Some?
      ensures ok ==> State() == WithPlayer(old(State()), i, DeliveredAll(old(players[i]), RESET_LINES))
      ensures !ok ==> State() == WithPlayer(old(State()), i, old(players[i]).(outbuf := players[i].outbuf))
    {
      hide EnqueuedAll;
      ghost var from := State();
      ghost var p := players[i];
      EnqueuedNothing(p.outbuf);
      assert State() == WithPlayer(from, i, p.(outbuf := p.outbuf));
      var sent: seq<string> := [];
      for k := 0 to |RESET_LINES|
        invariant sent == RESET_LINES[..k] && Sent(from, i, sent)
      {
        assert sent + [RESET_LINES[k]] == RESET_LINES[..k + 1];
        ok := QueueNext(i, RESET_LINES[k], from, sent, RESET_LINES);
        if !ok { return; }
        sent := sent + [RESET_LINES[k]];
      }
      assert RESET_LINES[..|RESET_LINES|] == RESET_LINES;
      ok := true;
    }

    method ResetTheMatch()
      requires Valid()
      modifies this, players
      ensures State() == ResetMatch(old(State()))
    {
      hide EnqueuedAll;
      phase := LobbyOpen;
      joinDeadline, setupDeadline, roundDeadline, roundNo := 0, 0, 0, 0;
      for i := 0 to MAX_PLAYERS
        modifies players
        invariant forall k :: i <= k < MAX_PLAYERS ==> players[k] == old(players[k])
        invariant forall k :: 0 <= k < i ==> var p := old(players[k]); players[k] == if p.connected then ResetPlayer(p) else p
      {
        if IsRegistered(players[i]) {
          ResetSlot(i);
        }
      }
    }

    method ResetSlot(i: Slot)
      requires Valid() && IsRegistered(players[i])
      modifies players
      ensures State() == WithPlayer(old(State()), i, ResetPlayer(old(players[i])))
    {
      hide EnqueuedAll;
      ghost var m := State();
      players[i] := FreshProgress(players[i]);
      ghost var q := players[i];
      assert State() == WithPlayer(m, i, q);
      var ok := QueueReset(i);
      if !ok {
        ClearSlot(i);
      }
      assert State() == WithPlayer(m, i, DeliveredAll(q, RESET_LINES));
    }

    method CloseLobbyIfNeeded(now: nat)
      requires Valid()
      modifies this, players
      ensures State() == CloseLobby(old(State()), now)
    {
      hide Broadcast, StartActiveRound, EndGame, CountIf;
      if phase != LobbyOpen || joinDeadline == 0 || now < joinDeadline {
        return;
      }
      phase := Setup;
      setupDeadline := now + SETUP_SECONDS;
      QueueBroadcast("LOBBY_CLOSED", now);
      QueueBroadcast(SetupOpenLine(SETUP_SECONDS), now);
      var admitted := CountAdmitted(players);
      if admitted < 2 {
        FinishMatch();
        return;
      }
      var ready := CheckAllAdmittedReady(players);
      if ready {
        StartTheRound(now);
      } else {
        QueueBroadcast("WAITING_FOR_OTHERS", now);
      }
    }

    method ExpireUnreadySetupPlayers(now: nat)
      requires Valid()
      modifies this, players
      ensures State() == ExpireUnready(old(State()), now)
    {
      hide Dropped, StartActiveRound, EndGame, CountIf;
      if phase != Setup || setupDeadline == 0 || now < setupDeadline {
        return;
      }
      ghost var before := State();
      for i := 0 to MAX_PLAYERS
        invariant State() == UnreadyDroppedUpTo(before, i, now)
      {
        if IsAdmitted(players[i]) && (!players[i].choiceChosen || !players[i].spawnChosen) {
          DropPlayer(i, true, now);
        }
      }
      var admitted := CountAdmitted(players);
      if admitted < 2 {
        FinishMatch();
        return;
      }
      var ready := CheckAllAdmittedReady(players);
      if ready {
        StartTheRound(now);
      }
    }

    /** The timers of one turn of the loop. The result is the time of the last chase tick. */
    method AdvanceMatchTimers(now: nat, clock: real, lastChaseTick: real, root: real -> real) returns (last: real)
      requires Valid()
      modifies this, players
      ensures World(State(), last) == AdvanceTimers(World(old(State()), lastChaseTick), now, clock, root)
    {
      hide CloseLobby, ExpireUnready, Tick, BroadcastPositions, Reevaluate, TypesAlive;
      CloseLobbyIfNeeded(now);
      ExpireUnreadySetupPlayers(now);
      if phase != RoundActive || clock - lastChaseTick < CHASE_TICK_SECONDS {
        return lastChaseTick;
      }
      last := clock;
      var matchEnded := SimulateChaseTick(players, CHASE_TICK_SECONDS, root);
      BroadcastAllPositions(now);
      if matchEnded {
        ReevaluateState(now);
      }
    }

    // -------------------------------------------------------------- elimination rounds

    method TellLoser(i: Slot)
      requires Valid()
      modifies players
      ensures State() == LoserTold(old(State()), i)
    {
      if players[i].connected {
        ghost var before := State();
        var ok := QueueLine(i, "ELIMINATED lost");
        if !ok {
          ClearSlot(i);
          assert State() == WithPlayer(before, i, EMPTY_SLOT);
        }
      }
    }

    method ResolvePair(p: Pair, now: nat)
      requires Valid() && InTable(p)
      modifies this, players
      ensures State() == PairResolved(old(State()), p, now)
    {
      hide Broadcast, FightLine, TieFightLine, LoserTold, RpsResult;
      ghost var before := State();
      var a, b := players[p.a], players[p.b];
      var r := RpsResult(a.choice, b.choice);
      if r == 1 {
        players[p.a] := a.(x := b.x, y := b.y);
        players[p.b] := b.(alive := false, inRound := false, x := -1.0, y := -1.0);
        assert State() == before.(players := Fought(before.players, p));
        QueueBroadcast(FightLine(players[p.a], players[p.b], players[p.a]), now);
        TellLoser(p.b);
      } else if r == -1 {
        players[p.b] := b.(x := a.x, y := a.y);
        players[p.a] := a.(alive := false, inRound := false, x := -1.0, y := -1.0);
        assert State() == before.(players := Fought(before.players, p));
        QueueBroadcast(FightLine(players[p.a], players[p.b], players[p.b]), now);
        TellLoser(p.a);
      } else {
        assert State() == before.(players := Fought(before.players, p));
        QueueBroadcast(TieFightLine(a, b), now);
      }
    }

    method BeginTheRepicks(now: nat)
      requires Valid()
      modifies this, players
      ensures State() == BeginRepicks(old(State()), now)
    {
      hide Broadcast, PositionsUpTo;
      ghost var before := State();
      phase := Repick;
      for i := 0 to MAX_PLAYERS
        modifies players
        invariant forall k :: i <= k < MAX_PLAYERS ==> players[k] == before.players[k]
        invariant forall k :: 0 <= k < i ==> players[k] == RepickReset(before.players[k])
      {
        players[i] := players[i].(inRound := false, repickSubmitted := false, repickChoice := '\0');
      }
      assert State() == before.(phase := Repick, players := MapAll(before.players, RepickReset));
      QueueBroadcast("REPICK_START", now);
      BroadcastAllPositions(now);
    }

    method LeaveRound()
      requires Valid()
      modifies players
      ensures State() == old(State()).(players := MapAll(old(State()).players, RoundLeft))
    {
      for i := 0 to MAX_PLAYERS
        invariant forall k :: i <= k < MAX_PLAYERS ==> players[k] == old(players[k])
        invariant forall k :: 0 <= k < i ==> players[k] == RoundLeft(old(players[k]))
      {
        players[i] := players[i].(inRound := false);
      }
    }

    /** The fights of a round. The ghost results are the pairs made and the slots left over. */
    method FightRound(now: nat) returns (ghost pairs: seq<Pair>, ghost left: seq<int>, bye: int)
      requires Valid()
      modifies this, players
      ensures AllInTable(pairs) && Greedy(old(players[..]), Eligible(old(players[..])), pairs, left)
      ensures |pairs| == |Eligible(old(players[..]))| / 2
      ensures bye == if |left| == 1 then left[0] else -1
      ensures -1 <= bye < MAX_PLAYERS
      ensures State() == RoundFought(old(State()), pairs, bye, now)
    {
      hide Greedy, Eligible, Broadcast, PairResolved, BroadcastPositions;
      ghost var before := State();
      var made := new Pair[MAX_PLAYERS / 2](_ => Pair(0, 0));
      EligibleFits(before.players);
      var count;
      count, bye, left := BuildPairs(players, made, MAX_PLAYERS / 2);
      pairs := made[..count];
      PairsInTable(before.players, pairs, left);
      for k := 0 to count
        invariant made[..count] == pairs
        invariant State() == PairsResolved(before, pairs[..k], now)
      {
        assert pairs[..k + 1][..k] == pairs[..k];
        ResolvePair(made[k], now);
      }
      assert pairs[..count] == pairs;
      if bye != -1 {
        QueueBroadcast(ByeLine(players[bye].name), now);
      }
      LeaveRound();
      BroadcastAllPositions(now);
    }

    method ResolveRound(now: nat) returns (ghost pairs: seq<Pair>, ghost left: seq<int>, ghost bye: int)
      requires Valid()
      modifies this, players
      ensures AllInTable(pairs) && Greedy(old(players[..]), Eligible(old(players[..])), pairs, left)
      ensures |pairs| == |Eligible(old(players[..]))| / 2 && -1 <= bye < MAX_PLAYERS
      ensures bye == if |left| == 1 then left[0] else -1
      ensures State() == RoundResolved(old(State()), pairs, bye, now)
    {
      hide Greedy, Eligible, RoundFought, StartActiveRound, EndGame, BeginRepicks, CountIf;
      var b;
      pairs, left, b := FightRound(now);
      bye := b;
      var alive := CountAlive(players);
      if alive <= 1 {
        FinishMatch();
        return;
      }
      var same := CheckAllAliveSameChoice(players);
      if same {
        BeginTheRepicks(now);
        return;
      }
      StartTheRound(now);
    }

    // -------------------------------------------------------------- commands

    /** `find_name` */
    method FindName(name: string) returns (taken: bool)
      requires Valid()
      ensures taken == NameTaken(State().players, name)
      ensures taken <==> exists k: Slot :: players[k].connected && players[k].registered && players[k].name == name
    {
      for i := 0 to MAX_PLAYERS
        invariant forall k :: 0 <= k < i ==> !(IsRegistered(players[k]) && players[k].name == name)
      {
        if IsRegistered(players[i]) && players[i].name == name {
          assert IsRegistered(State().players[i]) && State().players[i].name == name;
          return true;
        }
      }
      return false;
    }

    method CheckSpawnTaken(x: int, y: int, ignore: int) returns (taken: bool)
      requires Valid()
      ensures taken == SpawnTaken(State().players, x, y, ignore)
      ensures taken <==> exists k: Slot :: k != ignore && IsAdmitted(players[k]) && players[k].spawnChosen
                                           && players[k].x == x as real && players[k].y == y as real
    {
      for i := 0 to MAX_PLAYERS
        invariant !SpawnTaken(players[..i], x, y, ignore)
        invariant forall k: Slot :: k < i && k != ignore && IsAdmitted(players[k]) && players[k].spawnChosen ==>
                    players[k].x != x as real || players[k].y != y as real
      {
        assert players[..i + 1] == players[..i] + [players[i]];
        if i != ignore && IsAdmitted(players[i]) && players[i].spawnChosen
           && players[i].x == x as real && players[i].y == y as real
        {
          assert IsAdmitted(State().players[i]);
          return true;
        }
      }
      assert players[..MAX_PLAYERS] == players[..];
      return false;
    }

    /** Queues a reply whose failure is ignored. */
    method Reply(i: Slot, line: string)
      requires Valid()
      modifies players
      ensures State() == Tell(old(State()), i, line)
    {
      var _ := QueueLine(i, line);
    }

    method ReplyAll(i: Slot, lines: seq<string>)
      requires Valid()
      modifies players
      ensures State() == WithPlayer(old(State()), i, ToldAll(old(players[i]), lines))
    {
      hide Told;
      ghost var from := State();
      assert State() == WithPlayer(from, i, players[i]);
      var rest := lines;
      while rest != []
        invariant State() == WithPlayer(from, i, players[i])
        invariant ToldAll(from.players[i], lines) == ToldAll(players[i], rest)
        decreases |rest|
      {
        Reply(i, rest[0]);
        rest := rest[1..];
      }
    }

    method Greet(i: Slot, name: Option<Name>, now: nat)
      requires Valid()
      modifies players
      ensures State() == HandleHello(old(State()), i, name, now)
    {
      hide ToldAll, Told, NameTaken;
      if players[i].registered {
        Reply(i, "ERROR already_registered");
        return;
      }
      if name.None? {
        Reply(i, "ERROR usage_HELLO_name");
        return;
      }
      var taken := FindName(name.value);
      if taken {
        Reply(i, "ERROR duplicate_name");
        return;
      }
      ghost var from := State();
      players[i] := FreshProgress(players[i].(name := name.value, registered := true));
      ReplyAll(i, [WelcomeLine(players[i].id), "SPECTATING"]
                  + if phase == LobbyOpen then
                      ["CHOOSE_TYPE", "CHOOSE_SPAWN 10 10",
                       if joinDeadline == 0 then "LOBBY_WAITING" else LobbyOpenLine(SecondsLeft(joinDeadline, now))]
                    else ["LOBBY_CLOSED"]);
    }

    /** `require_registered_not_admitted` */
    method RequireRegisteredNotAdmitted(i: Slot) returns (ok: bool)
      requires Valid()
      modifies players
      ensures ok == (old(players[i]).registered && !old(players[i]).admitted)
      ensures State() == if ok then old(State())
                         else Tell(old(State()), i, if !old(players[i]).registered then "ERROR register_first"
                                                    else "ERROR already_joined")
    {
      if !players[i].registered {
        Reply(i, "ERROR register_first");
        return false;
      }
      if players[i].admitted {
        Reply(i, "ERROR already_joined");
        return false;
      }
      return true;
    }

    method TakeChoice(i: Slot, arg: Option<string>, now: nat)
      requires Valid()
      modifies this, players
      ensures State() == HandleChoose(old(State()), i, arg, now)
    {
      hide MaybeAdmit, Told, ParseChoice;
      var ok := RequireRegisteredNotAdmitted(i);
      if !ok { return; }
      match ParseChoice(arg) {
        case None => Reply(i, "ERROR bad_choice");
        case Some(c) =>
          ghost var from, q := State(), players[i].(choice := c, choiceChosen := true);
          players[i] := players[i].(choice := c, choiceChosen := true);
          assert State() == WithPlayer(from, i, q);
          WithPlayerTwice(from, i, q, Told(q, ChoiceOkLine(c)));
          Reply(i, ChoiceOkLine(c));
          MaybeAdmitPlayer(i, now);
      }
    }

    method TakeSpawn(i: Slot, at: Option<(real, real)>, now: nat)
      requires Valid()
      modifies this, players
      ensures State() == HandleSpawn(old(State()), i, at, now)
    {
      hide MaybeAdmit, Told, SpawnTaken;
      var ok := RequireRegisteredNotAdmitted(i);
      if !ok { return; }
      if at.None? {
        Reply(i, "ERROR usage_SPAWN_x_y");
        return;
      }
      var (x, y) := at.value;
      if x < 0.0 || x >= GRID_W as real || y < 0.0 || y >= GRID_H as real {
        Reply(i, "ERROR bad_spawn");
        return;
      }
      var taken := CheckSpawnTaken(x.Floor, y.Floor, i);
      if taken {
        Reply(i, "ERROR spawn_taken");
        return;
      }
      ghost var from, q := State(), players[i].(x := x, y := y, spawnChosen := true);
      players[i] := players[i].(x := x, y := y, spawnChosen := true);
      assert State() == WithPlayer(from, i, q);
      WithPlayerTwice(from, i, q, Told(q, SpawnOkLine(x, y)));
      Reply(i, SpawnOkLine(x, y));
      MaybeAdmitPlayer(i, now);
    }

    method TakeRepick(i: Slot, arg: Option<string>, now: nat)
      requires Valid()
      modifies this, players
      ensures State() == HandlePickAgain(old(State()), i, arg, now)
    {
      hide FinishRepicks, Told, ParseChoice, CountIf;
      var p := players[i];
      if phase != Repick {
        Reply(i, "ERROR not_in_repick_phase");
      } else if !p.registered || !p.admitted || !p.alive {
        Reply(i, "ERROR not_alive");
      } else if p.repickSubmitted {
        Reply(i, "ERROR already_repicked");
      } else {
        match ParseChoice(arg) {
          case None => Reply(i, "ERROR bad_choice");
          case Some(c) =>
            ghost var from, q := State(), players[i].(repickChoice := c, repickSubmitted := true);
            players[i] := players[i].(repickChoice := c, repickSubmitted := true);
            assert State() == WithPlayer(from, i, q);
            WithPlayerTwice(from, i, q, Told(q, RepickOkLine(c)));
            Reply(i, RepickOkLine(c));
            var done := CheckAllAliveRepicked(players);
            if done {
              FinishTheRepicks(now);
            } else {
              Reply(i, "REPICK_WAITING");
            }
        }
      }
    }

    method GiveState(i: Slot, now: nat)
      requires Valid() && players[i].connected
      modifies this, players
      ensures State() == HandleGetState(old(State()), i, now)
    {
      hide EnqueuedAll, SnapshotLines, Reevaluate;
      ghost var from := State();
      var ok := QueueGameState(i, now);
      if !ok {
        ClearedForgets(from, i, players[i].outbuf);
        GiveUp(i, now);
      }
    }

    method HandleCommandLine(i: Slot, c: Command, now: nat)
      requires Valid() && players[i].connected
      modifies this, players
      ensures State() == HandleCommand(old(State()), i, c, now)
    {
      hide HandleHello, HandleChoose, HandleSpawn, HandlePickAgain, HandleGetState, Dropped, Reevaluate, Tell, ResetMatch;
      match c {
        case Unknown => Reply(i, "ERROR bad_command");
        case Hello(name) => Greet(i, name, now);
        case Choose(arg) => TakeChoice(i, arg, now);
        case Spawn(at) => TakeSpawn(i, at, now);
        case PickAgain(arg) => TakeRepick(i, arg, now);
        case GetState => GiveState(i, now);
        case Rematch =>
          if phase != GameOver {
            Reply(i, "ERROR rematch_not_available");
          } else {
            ResetTheMatch();
          }
        case Quit =>
          DropPlayer(i, true, now);
          ReevaluateState(now);
      }
    }

    // -------------------------------------------------------------- the loop

    method AcceptClient()
      requires Valid()
      modifies this, players
      ensures State() == Accepted(old(State()))
    {
      hide Told;
      var i := 0;
      while i < MAX_PLAYERS && players[i].connected
        invariant i <= MAX_PLAYERS
        invariant forall k :: 0 <= k < i ==> players[k].connected
      {
        i := i + 1;
      }
      assert i == FreeSlot(State().players);
      if i == MAX_PLAYERS {
        return;
      }
      players[i] := NewPlayer(nextId);
      nextId := nextId + 1;
      Reply(i, "INFO connected_send_HELLO_name");
    }

    /** One event of the loop. Lines are popped from connected slots only. */
    method Handle(e: Event, lastChaseTick: real, root: real -> real) returns (last: real)
      requires Valid()
      modifies this, players
      ensures World(State(), last) == Step(World(old(State()), lastChaseTick), e, root)
    {
      hide Accepted, HandleCommand, AdvanceTimers, Dropped, Reevaluate;
      last := lastChaseTick;
      match e {
        case Accept => AcceptClient();
        case ReadFailure(i, now) =>
          if players[i].connected {
            DropPlayer(i, true, now);
            ReevaluateState(now);
          }
        case Line(i, command, now) =>
          if players[i].connected {
            HandleCommandLine(i, command, now);
          }
        case Write(i, sends, now) =>
          if players[i].connected {
            var (sent, outcome) := FlushCount(|players[i].outbuf|, sends);
            players[i] := players[i].(outbuf := players[i].outbuf[sent..]);
            if outcome == Broken {
              DropPlayer(i, true, now);
              ReevaluateState(now);
            }
          }
        case Timer(now, clock) =>
          last := AdvanceMatchTimers(now, clock, lastChaseTick, root);
      }
    }
  }

  /** Dropping a connected slot forgets what was queued for it. */
  lemma ClearedForgets(s: Server, i: Slot, outbuf: string)
    requires s.players[i].connected
    ensures Cleared(WithPlayer(s, i, s.players[i].(outbuf := outbuf)), i) == Cleared(s, i)
  {
  }

  lemma WithPlayerTwice(s: Server, i: Slot, p: Player, q: Player)
    ensures WithPlayer(WithPlayer(s, i, p), i, q) == WithPlayer(s, i, q)
    ensures WithPlayer(s, i, p).players == s.players[i := p] && WithPlayer(s, i, p).players[i] == p
  {
  }

  lemma PairsInTable(ps: Table, pairs: seq<Pair>, left: seq<int>)
    requires Greedy(ps, Eligible(ps), pairs, left)
    ensures AllInTable(pairs) && forall k :: 0 <= k < |left| ==> 0 <= left[k] < MAX_PLAYERS
  {
    GreedyPartitions(ps, Eligible(ps), pairs, left);
    EligibleAscending(ps);
    hide Greedy, Eligible;
    forall i | 0 <= i < |pairs|
      ensures InTable(pairs[i])
    {
      assert pairs[i].a in Eligible(ps) && pairs[i].b in Eligible(ps);
    }
  }

  /** The server process: a fresh server that handles one event after the other. Whatever the
      events, its state is that of the run, and consistent. */
  method Serve(events: seq<Event>, clock: real, root: real -> real) returns (m: Match, last: real)
    ensures m.Valid() && fresh(m) && fresh(m.players)
    ensures World(m.State(), last) == Run(StartOfServer(clock), events, root)
    ensures Inv(m.State())
  {
    hide Step, Inv;
    m := new Match();
    last := clock;
    for i := 0 to |events|
      invariant m.Valid() && fresh(m) && fresh(m.players)
      invariant World(m.State(), last) == Run(StartOfServer(clock), events[..i], root)
    {
      last := m.Handle(events[i], last, root);
      assert events[..i + 1][..i] == events[..i];
    }
    assert events[..|events|] == events;
    ReachableStates(clock, events, root);
  }

  /** A connected slot whose buffer cannot take the line. */
  predicate Refuses(p: Player, line: string) { p.connected && Enqueued(p.outbuf, line).None? }

  /** A slot after the first pass of a broadcast, before those that refused are dropped. */
  function SentTo(p: Player, line: string): Player { if p.connected then Told(p, line) else p }

  lemma DroppedOrSent(p: Player, line: string)
    ensures (if p.connected then Delivered(p, line) else p) == if Refuses(p, line) then EMPTY_SLOT else SentTo(p, line)
  {
  }

  lemma LossIffRefusal(ps: Table, line: string)
    ensures Connected(MapConnected(ps, p => Delivered(p, line))) <= Connected(ps)
    ensures Connected(MapConnected(ps, p => Delivered(p, line))) != Connected(ps) <==>
            exists k: Slot :: Refuses(ps[k], line)
  {
    hide Enqueued;
    var qs := MapConnected(ps, p => Delivered(p, line));
    forall k: Slot
      ensures qs[k].connected <==> ps[k].connected && !Refuses(ps[k], line)
    {
    }
    assert forall k: Slot :: k in Connected(ps) <==> ps[k].connected;
    assert forall k: Slot :: k in Connected(qs) <==> qs[k].connected;
  }

  lemma NoPlayerLines(ps: seq<Player>)
    requires ps == []
    ensures PlayerLines(ps) == []
  {
  }
}
