/** Joining a match: CHOICE and SPAWN in either order admit a player whose output buffer takes what it
    is sent, and a stated room is enough for that. */
module Joining {
  import opened Common
  import opened Protocol
  import opened ServerState
  import opened ServerCommands
  import opened ServerInvariant
  import opened RunInvariant
  import opened MatchRuns
  import opened SnapshotText
  import opened Mail
  import opened Admissions

  /** More than an admission ever sends to the player admitted. */
  const JOIN_ROOM := 2200

  ghost predicate HasRoom(p: Player, room: nat) { |p.outbuf| + room <= OUTBUF_SIZE }

  /** A broadcast in the lobby reaches a slot with room. */
  lemma BroadcastReaches(s: Server, i: Slot, line: string, now: nat)
    requires Sound(s) && s.phase == LobbyOpen && s.players[i].connected
    requires |line| < 64 && HasRoom(s.players[i], 64)
    ensures var p := Broadcast(s, line, now).players[i];
            p.connected && p == s.players[i].(outbuf := s.players[i].outbuf + Frame(line))
  {
    BroadcastTouchesDelivered(s, line, now, i);
    hide Broadcast;
  }

  lemma {:induction false} SnapshotReaches(s: Server, i: Slot, n: nat, now: nat)
    requires Sound(s) && InRange(s, now) && n <= MAX_PLAYERS
    requires IsRegistered(s.players[i]) && HasRoom(s.players[i], SNAPSHOT_LIMIT)
    ensures var r := SnapshotsUpTo(s, n, now);
            && r.players[i].connected
            && (n <= i ==> r.players[i] == s.players[i])
            && Sound(r) && r == s.(players := r.players)
  {
    hide SnapshotLines, EnqueuedAll, Sound, InRange;
    SnapshotsPrune(s, n, now);
    var r := SnapshotsUpTo(s, n, now);
    PrunedStaysSound(s, r);
    if n > 0 {
      SnapshotReaches(s, i, n - 1, now);
      var m := SnapshotsUpTo(s, n - 1, now);
      if n - 1 == i {
        RangeOfHeader(s, m, now);
        SoundRecords(m);
        SnapshotRefusedIff(m, m.players[i], now, m.players[i].outbuf);
      }
    }
  }

  lemma PrunedStaysSound(s: Server, r: Server)
    requires Sound(s) && r == s.(players := r.players) && Pruned(s.players, r.players)
    ensures Sound(r)
  {
    PrunedKeeps(s, r);
  }

  lemma RangeOfHeader(s: Server, r: Server, now: nat)
    requires InRange(s, now) && r == s.(players := r.players)
    ensures InRange(r, now)
  {
  }

  /** In the lobby the state broadcast leaves a registered slot with room connected. */
  lemma StateReaches(s: Server, i: Slot, now: nat)
    requires Sound(s) && s.phase == LobbyOpen && InRange(s, now)
    requires IsRegistered(s.players[i]) && HasRoom(s.players[i], SNAPSHOT_LIMIT)
    ensures BroadcastGameState(s, now).players[i].connected
  {
    hide SnapshotsUpTo, Sound, InRange;
    SnapshotReaches(s, i, MAX_PLAYERS, now);
  }

  /** The clock values an admission may show are within the range of the machine. */
  ghost predicate LobbyInRange(s: Server, now: nat) {
    InRange(s, now) && InRange(s.(joinDeadline := 0), now)
    && InRange(s.(joinDeadline := now + JOIN_WINDOW_SECONDS), now)
  }

  lemma AdmittedStays(s: Server, i: Slot, now: nat)
    requires Sound(s) && s.phase == LobbyOpen && IsCandidate(s.players[i])
    requires HasRoom(s.players[i], JOIN_ROOM - 64) && InRange(s, now) && InRange(s.(joinDeadline := 0), now)
    ensures Admitted(s, i, now).players[i].connected
  {
    var p := s.players[i];
    var outbuf := p.outbuf + Frame("JOINED_MATCH");
    assert Enqueued(p.outbuf, "JOINED_MATCH") == Some(outbuf);
    MarkedSound(s, i, outbuf);
    var m := Marked(s, i, outbuf);
    SoundPlayer(s, i);
    assert |JoinedLine(p.name)| < 64;
    BroadcastReaches(m, i, JoinedLine(p.name), now);
    BroadcastSound(m, JoinedLine(p.name), now);
    LobbyHeader(m, JoinedLine(p.name), now);
    hide Broadcast, BroadcastGameState, Sound, Records, InRange;
    var b := Broadcast(m, JoinedLine(p.name), now);
    NestedKept(m, b);
    assert HasRoom(b.players[i], SNAPSHOT_LIMIT);
    assert InRange(b, now) by { RangeOfLobby(s, b, now); }
    StateReaches(b, i, now);
  }

  /** A broadcast in the lobby leaves the phase and, at most, clears the timer. */
  lemma LobbyHeader(s: Server, line: string, now: nat)
    requires Sound(s) && s.phase == LobbyOpen
    ensures var r := Broadcast(s, line, now);
            r == s.(players := r.players, joinDeadline := r.joinDeadline) && (r.joinDeadline == s.joinDeadline || r.joinDeadline == 0)
  {
  }

  lemma RangeOfLobby(s: Server, r: Server, now: nat)
    requires InRange(s, now) && InRange(s.(joinDeadline := 0), now)
    requires r == s.(players := r.players, joinDeadline := r.joinDeadline)
    requires r.joinDeadline == s.joinDeadline || r.joinDeadline == 0
    ensures InRange(r, now) && InRange(r.(joinDeadline := 0), now)
  {
  }

  /** With that much room the candidate's buffer takes all that its admission sends to it. */
  lemma RoomToJoin(s: Server, i: Slot, now: nat)
    requires Inv(s) && s.phase == LobbyOpen && IsCandidate(s.players[i])
    requires s.joinDeadline == 0 || now < s.joinDeadline
    requires HasRoom(s.players[i], JOIN_ROOM) && LobbyInRange(s, now)
    ensures Takes(s.players[i], JoinLines(s, i, now))
  {
    AdmissionIff(s, i, now);
    hide Sound, Records, InRange, Admitted, Broadcast, JoinLines, Takes;
    if s.joinDeadline == 0 {
      var s0 := s.(joinDeadline := now + JOIN_WINDOW_SECONDS);
      SetTimerSound(s, s0);
      OpeningShort();
      BroadcastReaches(s0, i, OPENING, now);
      LobbyHeader(s0, OPENING, now);
      OpenedSound(s, i, now);
      var b := Opened(s, now);
      RangeOfLobby(s0, b, now);
      AdmittedStays(b, i, now);
    } else {
      AdmittedStays(s, i, now);
    }
  }

  /** A candidate in a lobby whose time is not up comes out of its admission connected if and only if
      its buffer takes all that it is sent. Then it waits for the match, with its type and its place,
      whoever else is dropped. */
  lemma CandidateJoins(s: Server, i: Slot, now: nat)
    requires Inv(s) && s.phase == LobbyOpen && IsCandidate(s.players[i])
    requires s.joinDeadline == 0 || now < s.joinDeadline
    ensures var p, q := s.players[i], MaybeAdmit(s, i, now).players[i];
            && (q.connected <==> Takes(p, JoinLines(s, i, now)))
            && (q.connected ==>
                  IsAdmitted(q) && Waits(q) && q.choice == p.choice && q.x == p.x && q.y == p.y && q.name == p.name && q.id == p.id)
  {
    AdmissionIff(s, i, now);
    MaybeAdmitDecides(s, i, now);
    hide Sound, Records, Joined, JoinLines, Takes, MaybeAdmit;
    var r := MaybeAdmit(s, i, now);
    if r.players[i].connected {
      if s.joinDeadline == 0 {
        OpenedSound(s, i, now);
        JoinedAsWas(Opened(s, now), i, r);
        StaysConnected(Opened(s, now), i, r);
      } else {
        JoinedAsWas(s, i, r);
      }
    }
  }

  lemma StaysConnected(s: Server, i: Slot, r: Server)
    requires Joined(s, i, r) && r.players[i].connected
    ensures s.players[i].connected
  {
  }

  lemma JoinedAsWas(s: Server, i: Slot, r: Server)
    requires Joined(s, i, r) && r.players[i].connected
    ensures var p, q := s.players[i], r.players[i];
            Waits(q) && q.connected && q.registered == p.registered && q.choice == p.choice && q.x == p.x && q.y == p.y
            && q.name == p.name && q.id == p.id && IsAdmitted(q)
  {
    SoundPlayer(r, i);
  }

  // ---------------------------------------------------------------- CHOICE and SPAWN

  /** A registered player that has neither chosen nor been admitted. */
  ghost predicate IsSpectator(p: Player) {
    p.connected && p.registered && !p.admitted && !p.choiceChosen && !p.spawnChosen
  }

  lemma ReplyShort(c: char, x: real, y: real)
    requires InBox(x, y)
    ensures |ChoiceOkLine(c)| < 64 && |SpawnOkLine(x, y)| < 64
  {
    Fixed1Short(x);
    Fixed1Short(y);
  }

  lemma Fixed1Short(v: real)
    requires 0.0 <= v < 10.0
    ensures |Text.Fixed1(v)| <= 6
  {
    var m := Text.Magnitude(Text.RoundHalfEven(v * 10.0));
    assert 0 <= m <= 100;
    assert Pow10(2) == 100;
    DigitsShort(m / 10, 2);
  }

  /** A player's first choice or place is only recorded. */
  lemma FirstHalf(s: Server, i: Slot, p: Player, now: nat)
    requires Inv(s) && IsSpectator(s.players[i]) && PlayerOk(p, s.nextId)
    requires p == s.players[i].(choice := p.choice, choiceChosen := p.choiceChosen, x := p.x, y := p.y,
                                spawnChosen := p.spawnChosen, outbuf := p.outbuf)
    requires !(p.choiceChosen && p.spawnChosen)
    ensures MaybeAdmit(WithPlayer(s, i, p), i, now) == WithPlayer(s, i, p) && Inv(WithPlayer(s, i, p))
  {
    PlayerChangeAdvances(s, i, p);
  }

  /** What a player has asked for with CHOICE and SPAWN. */
  function Asked(p: Player, c: char, x: real, y: real): Player {
    p.(choice := c, choiceChosen := true, x := x, y := y, spawnChosen := true)
  }

  ghost predicate JoinedAs(q: Player, c: char, x: real, y: real) {
    IsAdmitted(q) && Waits(q) && q.choice == c && q.x == x && q.y == y
  }

  /** A spectator of a lobby whose time is not up, and the type and the free tile it asks for. */
  ghost predicate CanJoin(s: Server, i: Slot, arg: string, c: char, x: real, y: real, now: nat) {
    && Inv(s) && s.phase == LobbyOpen && IsSpectator(s.players[i])
    && (s.joinDeadline == 0 || now < s.joinDeadline)
    && NamesType(arg, c) && InBox(x, y) && IsFree(s.players, i, x.Floor, y.Floor)
  }

  /** No other admitted player with a spawn stands at these coordinates. */
  predicate IsFree(ps: Table, i: Slot, x: int, y: int) {
    forall k: Slot :: k != i && IsAdmitted(ps[k]) && ps[k].spawnChosen ==> ps[k].x != x as real || ps[k].y != y as real
  }

  lemma FreeIsNotTaken(ps: Table, i: Slot, x: int, y: int)
    ensures IsFree(ps, i, x, y) <==> !SpawnTaken(ps, x, y, i)
  {
    hide IsAdmitted;
    if SpawnTaken(ps, x, y, i) {
      var k: Slot :| k != i && IsAdmitted(ps[k]) && ps[k].spawnChosen && ps[k].x == x as real && ps[k].y == y as real;
    }
  }

  /** All that the player is sent during the admission, whichever of the two commands brings it about. */
  function AskedLines(s: Server, i: Slot, c: char, x: real, y: real, now: nat): seq<string> {
    JoinLines(WithPlayer(s, i, Asked(s.players[i], c, x, y)), i, now)
  }

  /** CHOICE and SPAWN, in either order, leave a spectator connected if and only if its buffer, with
      the two replies, takes all that the admission sends to it. Then it has joined with the type and
      at the place that it asked for. */
  lemma JoinsInEitherOrder(s: Server, i: Slot, arg: string, c: char, x: real, y: real, now: nat)
    requires CanJoin(s, i, arg, c, x, y, now)
    ensures var p := Asked(s.players[i], c, x, y);
            var q := HandleSpawn(HandleChoose(s, i, Some(arg), now), i, Some((x, y)), now).players[i];
            && (q.connected <==> Takes(Told(Told(p, ChoiceOkLine(c)), SpawnOkLine(x, y)), AskedLines(s, i, c, x, y, now)))
            && (q.connected ==> JoinedAs(q, c, x, y))
    ensures var p := Asked(s.players[i], c, x, y);
            var q := HandleChoose(HandleSpawn(s, i, Some((x, y)), now), i, Some(arg), now).players[i];
            && (q.connected <==> Takes(Told(Told(p, SpawnOkLine(x, y)), ChoiceOkLine(c)), AskedLines(s, i, c, x, y, now)))
            && (q.connected ==> JoinedAs(q, c, x, y))
  {
    hide CanJoin, JoinedAs, Takes, AskedLines, Told, HandleChoose, HandleSpawn;
    ChoiceThenSpawn(s, i, arg, c, x, y, now);
    SpawnThenChoice(s, i, arg, c, x, y, now);
  }

  /** A reply does not get in the way of a change to the record. */
  lemma ToldThenSpawned(p: Player, x: real, y: real, line: string)
    ensures Told(p, line).(x := x, y := y, spawnChosen := true) == Told(p.(x := x, y := y, spawnChosen := true), line)
  {
    hide Enqueued;
    var q := p.(x := x, y := y, spawnChosen := true);
    assert q.outbuf == p.outbuf;
    if Enqueued(p.outbuf, line).Some? {
      var outbuf := Enqueued(p.outbuf, line).value;
      assert Told(p, line) == p.(outbuf := outbuf) && Told(q, line) == q.(outbuf := outbuf);
      hide Told;
    } else {
      assert Told(p, line) == p && Told(q, line) == q;
      hide Told;
    }
  }

  lemma ToldThenChosen(p: Player, c: char, line: string)
    ensures Told(p, line).(choice := c, choiceChosen := true) == Told(p.(choice := c, choiceChosen := true), line)
  {
    hide Enqueued;
    var q := p.(choice := c, choiceChosen := true);
    assert q.outbuf == p.outbuf;
    if Enqueued(p.outbuf, line).Some? {
      var outbuf := Enqueued(p.outbuf, line).value;
      assert Told(p, line) == p.(outbuf := outbuf) && Told(q, line) == q.(outbuf := outbuf);
      hide Told;
    } else {
      assert Told(p, line) == p && Told(q, line) == q;
      hide Told;
    }
  }

  lemma {:induction false} JoinLinesSame(s: Server, u: Server, i: Slot, now: nat)
    requires SamePlayer(s.players[i], u.players[i]) && u == WithPlayer(s, i, u.players[i])
    ensures JoinLines(u, i, now) == JoinLines(s, i, now)
  {
    hide AdmittedLines, Opened;
    assert Emptied(u.players[i]) == Emptied(s.players[i]);
    assert WithoutOutput(u, i) == WithoutOutput(s, i);
  }

  lemma AskedOk(p: Player, c: char, x: real, y: real, a: string, b: string, nextId: int)
    requires PlayerOk(p, nextId) && p.registered && !p.admitted && IsRps(c) && InBox(x, y)
    ensures PlayerOk(Told(Told(Asked(p, c, x, y), a), b), nextId) && IsCandidate(Asked(p, c, x, y)) == p.connected
  {
    assert PlayerOk(Asked(p, c, x, y), nextId);
    hide Told;
    ToldOk(Asked(p, c, x, y), a);
    assert PlayerOk(Told(Asked(p, c, x, y), a), nextId);
    ToldOk(Told(Asked(p, c, x, y), a), b);
  }

  /** The admission that the second command asks for. */
  lemma SecondHalf(s: Server, i: Slot, c: char, x: real, y: real, a: string, b: string, now: nat)
    requires Inv(s) && s.phase == LobbyOpen && IsSpectator(s.players[i]) && (s.joinDeadline == 0 || now < s.joinDeadline)
    requires IsRps(c) && InBox(x, y)
    ensures var p := Told(Told(Asked(s.players[i], c, x, y), a), b);
            var q := MaybeAdmit(WithPlayer(s, i, p), i, now).players[i];
            && Inv(WithPlayer(s, i, p)) && IsCandidate(p)
            && (q.connected <==> Takes(p, AskedLines(s, i, c, x, y, now))) && (q.connected ==> JoinedAs(q, c, x, y))
  {
    var o := Asked(s.players[i], c, x, y);
    var p := Told(Told(o, a), b);
    SoundPlayer(s, i);
    AskedOk(s.players[i], c, x, y, a, b, s.nextId);
    ToldOk(o, a);
    ToldOk(Told(o, a), b);
    SameTwice(o, Told(o, a), p);
    SameAsked(s.players[i], c, x, y, p);
    hide Told, MaybeAdmit, Inv, Takes, JoinLines, PlayerOk;
    var s0, s2 := WithPlayer(s, i, o), WithPlayer(s, i, p);
    assert WithPlayer(s0, i, p) == s2;
    PlayerChangeAdvances(s, i, p);
    JoinLinesSame(s0, s2, i, now);
    CandidateJoins(s2, i, now);
  }

  lemma SameAsked(o: Player, c: char, x: real, y: real, p: Player)
    requires SamePlayer(Asked(o, c, x, y), p)
    ensures p == o.(choice := p.choice, choiceChosen := p.choiceChosen, x := p.x, y := p.y, spawnChosen := p.spawnChosen, outbuf := p.outbuf)
    ensures p.choice == c && p.x == x && p.y == y && p.choiceChosen && p.spawnChosen && p.connected == o.connected
    ensures IsCandidate(p) == IsCandidate(Asked(o, c, x, y))
  {
  }

  lemma ChoiceThenSpawn(s: Server, i: Slot, arg: string, c: char, x: real, y: real, now: nat)
    requires CanJoin(s, i, arg, c, x, y, now)
    ensures var p := Asked(s.players[i], c, x, y);
            var q := HandleSpawn(HandleChoose(s, i, Some(arg), now), i, Some((x, y)), now).players[i];
            && (q.connected <==> Takes(Told(Told(p, ChoiceOkLine(c)), SpawnOkLine(x, y)), AskedLines(s, i, c, x, y, now)))
            && (q.connected ==> JoinedAs(q, c, x, y))
  {
    var o := s.players[i];
    var p1 := Told(o.(choice := c, choiceChosen := true), ChoiceOkLine(c));
    var s1 := WithPlayer(s, i, p1);
    assert ParseChoice(Some(arg)) == Some(c);
    RecordedOnly(s, i, o.(choice := c, choiceChosen := true), ChoiceOkLine(c), now);
    ToldThenSpawned(o.(choice := c, choiceChosen := true), x, y, ChoiceOkLine(c));
    ToldOk(o.(choice := c, choiceChosen := true), ChoiceOkLine(c));
    FreeIsNotTaken(s.players, i, x.Floor, y.Floor);
    OthersSpawn(s, i, p1, x.Floor, y.Floor);
    SecondHalf(s, i, c, x, y, ChoiceOkLine(c), SpawnOkLine(x, y), now);
    hide Told, MaybeAdmit, Inv, Takes, AskedLines, JoinedAs, SpawnTaken, IsFree, ChoiceOkLine, SpawnOkLine, ParseChoice;
    var p2 := Told(Told(Asked(o, c, x, y), ChoiceOkLine(c)), SpawnOkLine(x, y));
    assert HandleChoose(s, i, Some(arg), now) == s1;
    assert WithPlayer(s1, i, p2) == WithPlayer(s, i, p2);
    assert HandleSpawn(s1, i, Some((x, y)), now) == MaybeAdmit(WithPlayer(s, i, p2), i, now);
  }

  lemma SpawnThenChoice(s: Server, i: Slot, arg: string, c: char, x: real, y: real, now: nat)
    requires CanJoin(s, i, arg, c, x, y, now)
    ensures var p := Asked(s.players[i], c, x, y);
            var q := HandleChoose(HandleSpawn(s, i, Some((x, y)), now), i, Some(arg), now).players[i];
            && (q.connected <==> Takes(Told(Told(p, SpawnOkLine(x, y)), ChoiceOkLine(c)), AskedLines(s, i, c, x, y, now)))
            && (q.connected ==> JoinedAs(q, c, x, y))
  {
    var o := s.players[i];
    var p1 := Told(o.(x := x, y := y, spawnChosen := true), SpawnOkLine(x, y));
    var s1 := WithPlayer(s, i, p1);
    FreeIsNotTaken(s.players, i, x.Floor, y.Floor);
    assert ParseChoice(Some(arg)) == Some(c);
    RecordedOnly(s, i, o.(x := x, y := y, spawnChosen := true), SpawnOkLine(x, y), now);
    ToldThenChosen(o.(x := x, y := y, spawnChosen := true), c, SpawnOkLine(x, y));
    ToldOk(o.(x := x, y := y, spawnChosen := true), SpawnOkLine(x, y));
    SecondHalf(s, i, c, x, y, SpawnOkLine(x, y), ChoiceOkLine(c), now);
    hide Told, MaybeAdmit, Inv, Takes, AskedLines, JoinedAs, SpawnTaken, IsFree, ChoiceOkLine, SpawnOkLine, ParseChoice;
    var p2 := Told(Told(Asked(o, c, x, y), SpawnOkLine(x, y)), ChoiceOkLine(c));
    assert HandleSpawn(s, i, Some((x, y)), now) == s1;
    assert WithPlayer(s1, i, p2) == WithPlayer(s, i, p2);
    assert HandleChoose(s1, i, Some(arg), now) == MaybeAdmit(WithPlayer(s, i, p2), i, now);
  }

  /** A player's first choice or place is only recorded. */
  lemma RecordedOnly(s: Server, i: Slot, p: Player, reply: string, now: nat)
    requires Inv(s) && IsSpectator(s.players[i]) && PlayerOk(p, s.nextId) && !(p.choiceChosen && p.spawnChosen)
    requires p == s.players[i].(choice := p.choice, choiceChosen := p.choiceChosen, x := p.x, y := p.y, spawnChosen := p.spawnChosen)
    ensures MaybeAdmit(WithPlayer(s, i, Told(p, reply)), i, now) == WithPlayer(s, i, Told(p, reply))
  {
    ToldOk(p, reply);
    hide Told;
  }

  lemma OthersSpawn(s: Server, i: Slot, p: Player, x: int, y: int)
    ensures SpawnTaken(WithPlayer(s, i, p).players, x, y, i) == SpawnTaken(s.players, x, y, i)
  {
    var r := WithPlayer(s, i, p);
    assert forall k :: 0 <= k < MAX_PLAYERS && k != i ==> r.players[k] == s.players[k];
  }

  /** Room for the two replies and the admission is enough. */
  lemma RoomToJoinInEitherOrder(s: Server, i: Slot, arg: string, c: char, x: real, y: real, now: nat)
    requires CanJoin(s, i, arg, c, x, y, now) && HasRoom(s.players[i], JOIN_ROOM + 128) && LobbyInRange(s, now)
    ensures JoinedAs(HandleSpawn(HandleChoose(s, i, Some(arg), now), i, Some((x, y)), now).players[i], c, x, y)
    ensures JoinedAs(HandleChoose(HandleSpawn(s, i, Some((x, y)), now), i, Some(arg), now).players[i], c, x, y)
  {
    JoinsInEitherOrder(s, i, arg, c, x, y, now);
    RoomAfterReplies(s, i, c, x, y, ChoiceOkLine(c), SpawnOkLine(x, y), now);
    RoomAfterReplies(s, i, c, x, y, SpawnOkLine(x, y), ChoiceOkLine(c), now);
    hide Takes, AskedLines, JoinedAs, Told, HandleChoose, HandleSpawn;
  }

  lemma RoomAfterReplies(s: Server, i: Slot, c: char, x: real, y: real, a: string, b: string, now: nat)
    requires Inv(s) && s.phase == LobbyOpen && IsSpectator(s.players[i]) && (s.joinDeadline == 0 || now < s.joinDeadline)
    requires IsRps(c) && InBox(x, y) && HasRoom(s.players[i], JOIN_ROOM + 128) && LobbyInRange(s, now)
    requires {a, b} == {ChoiceOkLine(c), SpawnOkLine(x, y)}
    ensures Takes(Told(Told(Asked(s.players[i], c, x, y), a), b), AskedLines(s, i, c, x, y, now))
  {
    var o := Asked(s.players[i], c, x, y);
    var p := Told(Told(o, a), b);
    ReplyShort(c, x, y);
    assert a in {a, b} && b in {a, b};
    RepliesFit(o, a, b);
    hide Told, Inv, Takes, JoinLines, LobbyInRange, ChoiceOkLine, SpawnOkLine, JoinedAs, MaybeAdmit, PlayerOk;
    SecondHalf(s, i, c, x, y, a, b, now);
    assert HasRoom(p, JOIN_ROOM);
    hide Asked;
    var s0, s2 := WithPlayer(s, i, o), WithPlayer(s, i, p);
    RangeOfTable(s, s2, now);
    RoomToJoin(s2, i, now);
    JoinLinesSame(s0, s2, i, now);
  }

  lemma RepliesFit(o: Player, a: string, b: string)
    requires |a| < 64 && |b| < 64
    ensures var p := Told(Told(o, a), b); |p.outbuf| <= |o.outbuf| + 128 && SamePlayer(o, p)
  {
    ToldOk(o, a);
    ToldOk(Told(o, a), b);
    assert |Told(o, a).outbuf| <= |o.outbuf| + 64;
    assert |Told(Told(o, a), b).outbuf| <= |Told(o, a).outbuf| + 64;
    hide Told;
    SameTwice(o, Told(o, a), Told(Told(o, a), b));
  }

  lemma RangeOfTable(s: Server, r: Server, now: nat)
    requires LobbyInRange(s, now) && r == s.(players := r.players)
    ensures LobbyInRange(r, now)
  {
  }
}
