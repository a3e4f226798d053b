/** Admissions, exactly: what a candidate is sent does not depend on its own buffer, and the candidate
    joins if and only if its buffer takes all of it. */
module Admissions {
  import opened Common
  import opened Text
  import opened Protocol
  import opened Game
  import opened ServerState
  import opened ServerInvariant
  import opened RunInvariant
  import opened Mail

  // ---------------------------------------------------------------- states that differ in one buffer

  /** The same state, but for what is still to be sent to slot `i`. */
  ghost predicate SameButOutput(s: Server, u: Server, i: Slot) {
    && u == s.(players := u.players)
    && SamePlayer(s.players[i], u.players[i])
    && forall k: Slot :: k != i ==> u.players[k] == s.players[k]
  }

  function Emptied(p: Player): Player { p.(outbuf := "") }

  function WithoutOutput(s: Server, i: Slot): Server { WithPlayer(s, i, Emptied(s.players[i])) }

  lemma EmptiedSame(s: Server, i: Slot)
    ensures SameButOutput(s, WithoutOutput(s, i), i)
  {
    var p := s.players[i];
    assert Emptied(p) == p.(outbuf := Emptied(p).outbuf);
  }

  lemma SameAdmitted(s: Server, u: Server, i: Slot)
    requires SameButOutput(s, u, i)
    ensures Connected(u.players) == Connected(s.players)
    ensures AdmittedCount(u.players) == 0 <==> AdmittedCount(s.players) == 0
    ensures PlayerLines(u.players) == PlayerLines(s.players)
  {
    CountZeroIff(s.players, IsAdmitted);
    CountZeroIff(u.players, IsAdmitted);
    SameLine(s.players[i], u.players[i]);
    hide PlayerLine, CountIf, IsAdmitted;
    SameConnected(s.players, u.players);
    SameLines(s.players, u.players);
  }

  lemma DeliveredSame(p: Player, q: Player, line: string)
    requires SamePlayer(p, q) && Enqueued(p.outbuf, line).Some? && Enqueued(q.outbuf, line).Some?
    ensures SamePlayer(Delivered(p, line), Delivered(q, line))
  {
    hide Enqueued;
    var r := Delivered(q, line);
    assert r == p.(outbuf := q.outbuf).(outbuf := r.outbuf);
  }

  /** What a broadcast in the lobby does to the table. */
  function ToldTable(ps: Table, line: string): Table { MapConnected(ps, p => Delivered(p, line)) }

  lemma LobbyBroadcast(s: Server, line: string, now: nat)
    requires s.phase == LobbyOpen
    ensures var t := ToldTable(s.players, line);
            Broadcast(s, line, now) ==
            s.(players := t, joinDeadline := if Connected(t) != Connected(s.players) && AdmittedCount(t) == 0 then 0 else s.joinDeadline)
  {
    hide Delivered, CountIf;
  }

  /** A broadcast in the lobby that slot `i` takes in both states. */
  lemma BroadcastSame(s: Server, u: Server, i: Slot, line: string, now: nat)
    requires SameButOutput(s, u, i) && s.phase == LobbyOpen && s.players[i].connected
    requires Enqueued(s.players[i].outbuf, line).Some? && Enqueued(u.players[i].outbuf, line).Some?
    ensures SameButOutput(Broadcast(s, line, now), Broadcast(u, line, now), i)
    ensures Broadcast(s, line, now).players[i] == Delivered(s.players[i], line)
  {
    LobbyBroadcast(s, line, now);
    LobbyBroadcast(u, line, now);
    DeliveredSame(s.players[i], u.players[i], line);
    SameAdmitted(s, u, i);
    var t, v := ToldTable(s.players, line), ToldTable(u.players, line);
    assert t[i] == Delivered(s.players[i], line) && v[i] == Delivered(u.players[i], line);
    hide Broadcast, Delivered, Enqueued, CountIf, PlayerLine;
    assert forall k: Slot :: k != i ==> v[k] == t[k];
    SameAdmitted(s.(players := t), s.(players := v), i);
  }

  lemma {:induction false} SnapshotsSame(s: Server, u: Server, i: Slot, n: nat, now: nat)
    requires SameButOutput(s, u, i) && s.phase == LobbyOpen && n <= i
    ensures SameButOutput(SnapshotsUpTo(s, n, now), SnapshotsUpTo(u, n, now), i)
    ensures SnapshotsUpTo(s, n, now).players[i] == s.players[i]
    ensures SnapshotsUpTo(s, n, now).phase == LobbyOpen
  {
    hide DeliveredAll, PlayerLine, SnapshotLines;
    if n > 0 {
      SnapshotsSame(s, u, i, n - 1, now);
      var m, w := SnapshotsUpTo(s, n - 1, now), SnapshotsUpTo(u, n - 1, now);
      LinesSame(m, w, i, m.players[n - 1], w.players[n - 1], now);
    }
  }

  /** In the lobby a snapshot is the same for everybody, and shows no buffers. */
  lemma LinesSame(s: Server, u: Server, i: Slot, p: Player, q: Player, now: nat)
    requires SameButOutput(s, u, i) && s.phase == LobbyOpen
    ensures SnapshotLines(s, p, now) == SnapshotLines(u, q, now)
  {
    SameAdmitted(s, u, i);
    hide PlayerLines;
  }

  // ---------------------------------------------------------------- snapshots to everybody

  /** In a state broadcast slot `i` sees the table that the snapshots to lower slots have left. */
  lemma {:induction false} SnapshotOfSlot(s: Server, i: Slot, n: nat, now: nat)
    requires s.phase == LobbyOpen && IsRegistered(s.players[i]) && i < n <= MAX_PLAYERS
    ensures var v := SnapshotsUpTo(s, i, now);
            SnapshotsUpTo(s, n, now).players[i] == DeliveredAll(s.players[i], SnapshotLines(v, v.players[i], now))
  {
    hide DeliveredAll, SnapshotLines;
    if n == i + 1 {
      SnapshotsSameSelf(s, i, now);
    } else {
      SnapshotOfSlot(s, i, n - 1, now);
    }
  }

  lemma SnapshotsSameSelf(s: Server, i: Slot, now: nat)
    requires s.phase == LobbyOpen
    ensures SnapshotsUpTo(s, i, now).players[i] == s.players[i]
  {
    hide SnapshotsUpTo;
    assert s.players[i] == s.players[i].(outbuf := s.players[i].outbuf);
    SnapshotsSame(s, s, i, i, now);
  }

  lemma StateOfSlot(s: Server, i: Slot, now: nat)
    requires s.phase == LobbyOpen && s.players[i].registered
    ensures var v := SnapshotsUpTo(s, i, now);
            BroadcastGameState(s, now).players[i].connected <==>
            s.players[i].connected && Takes(s.players[i], SnapshotLines(v, v.players[i], now))
  {
    SnapshotsPrune(s, MAX_PLAYERS, now);
    hide SnapshotsUpTo, SnapshotLines, EnqueuedAll;
    if s.players[i].connected {
      SnapshotOfSlot(s, i, MAX_PLAYERS, now);
    }
  }

  // ---------------------------------------------------------------- the lines

  /** The state from which the candidate in slot `i` is shown the match, had it read everything. */
  function ShownState(b: Server, i: Slot, now: nat): Server {
    SnapshotsUpTo(Broadcast(Marked(b, i, ""), JoinedLine(b.players[i].name), now), i, now)
  }

  function AdmittedLines(b: Server, i: Slot, now: nat): seq<string> {
    var v := ShownState(b, i, now);
    ["JOINED_MATCH", JoinedLine(b.players[i].name)] + SnapshotLines(v, v.players[i], now)
  }

  /** All that the candidate in slot `i` of an open lobby is sent during its admission. Its own buffer
      is left out of account; those of the others matter, for the snapshot shows who is left. */
  function JoinLines(s: Server, i: Slot, now: nat): seq<string> {
    var u := WithoutOutput(s, i);
    if s.joinDeadline == 0 then [OPENING] + AdmittedLines(Opened(u, now), i, now) else AdmittedLines(u, i, now)
  }

  lemma ShortLine(line: string)
    requires |line| < 64
    ensures Enqueued("", line).Some?
  {
  }

  lemma MarkedSame(s: Server, u: Server, i: Slot, outbuf: string)
    requires SameButOutput(s, u, i)
    ensures SameButOutput(Marked(s, i, outbuf), Marked(u, i, ""), i)
  {
    var p, q := Marked(s, i, outbuf).players[i], Marked(u, i, "").players[i];
    assert q == p.(outbuf := "");
  }

  lemma MarkedSlot(s: Server, i: Slot, outbuf: string)
    ensures Marked(s, i, outbuf) == WithPlayer(s, i, s.players[i].(admitted := true, waiting := true).(outbuf := outbuf))
  {
  }

  /** The admission proper, in a state whose slot `i` is still connected. */
  lemma AdmittedIff(s: Server, u: Server, i: Slot, now: nat)
    requires SameButOutput(s, u, i) && s.phase == LobbyOpen && IsCandidate(s.players[i]) && |s.players[i].name| < MAX_NAME_LENGTH
    ensures Admitted(s, i, now).players[i].connected <==> Takes(s.players[i], AdmittedLines(u, i, now))
  {
    var p, line := s.players[i], JoinedLine(s.players[i].name);
    var snapshot := SnapshotLines(ShownState(u, i, now), ShownState(u, i, now).players[i], now);
    assert ["JOINED_MATCH", line] + snapshot == ["JOINED_MATCH"] + ([line] + snapshot);
    EnqueuedAllCons(p.outbuf, "JOINED_MATCH", [line] + snapshot);
    assert u.players[i].name == p.name;
    hide Enqueued, EnqueuedAll, SnapshotLines, ShownState, Broadcast, BroadcastGameState, Reevaluate, SamePlayer;
    match Enqueued(p.outbuf, "JOINED_MATCH")
    case None =>
      LobbyReevaluated(Cleared(WithPlayer(s, i, p.(admitted := true, waiting := true)), i), now);
    case Some(outbuf) =>
      EnqueuedAllCons(outbuf, line, snapshot);
      MarkedSlot(s, i, outbuf);
      MarkedSame(s, u, i, outbuf);
      ShownIff(Marked(s, i, outbuf), Marked(u, i, ""), i, line, now);
  }

  lemma LobbyReevaluated(s: Server, now: nat)
    requires s.phase == LobbyOpen
    ensures Reevaluate(s, now).players == s.players
  {
  }

  lemma ShownIff(m: Server, w: Server, i: Slot, line: string, now: nat)
    requires SameButOutput(m, w, i) && m.phase == LobbyOpen && IsRegistered(m.players[i])
    requires w.players[i].outbuf == "" && |line| < 64
    ensures var v := SnapshotsUpTo(Broadcast(w, line, now), i, now);
            BroadcastGameState(Broadcast(m, line, now), now).players[i].connected <==>
            match Enqueued(m.players[i].outbuf, line)
            case None => false
            case Some(outbuf) => EnqueuedAll(outbuf, SnapshotLines(v, v.players[i], now)).Some?
  {
    ShortLine(line);
    LobbyBroadcast(m, line, now);
    var b, c := Broadcast(m, line, now), Broadcast(w, line, now);
    hide Broadcast, SnapshotLines, BroadcastGameState, SnapshotsUpTo, EnqueuedAll;
    if Enqueued(m.players[i].outbuf, line).Some? {
      BroadcastSame(m, w, i, line, now);
      SnapshotsSame(b, c, i, i, now);
      LinesSame(SnapshotsUpTo(b, i, now), SnapshotsUpTo(c, i, now), i,
                SnapshotsUpTo(b, i, now).players[i], SnapshotsUpTo(c, i, now).players[i], now);
      StateOfSlot(b, i, now);
    } else {
      assert b.players[i] == EMPTY_SLOT;
      GoneStaysGone(b, i, now);
    }
  }

  lemma GoneStaysGone(s: Server, i: Slot, now: nat)
    requires s.phase == LobbyOpen && !s.players[i].connected
    ensures !BroadcastGameState(s, now).players[i].connected
  {
    SnapshotsPrune(s, MAX_PLAYERS, now);
    hide SnapshotsUpTo;
  }

  lemma OpeningShort()
    ensures |OPENING| == 13
  {
    assert Text.Digits(60) == Text.Digits(6) + [Text.Digit(0)];
  }

  /** A candidate of an open lobby whose time is not up stays connected through its admission if and
      only if its buffer takes all that the admission sends to it. */
  lemma AdmissionIff(s: Server, i: Slot, now: nat)
    requires Inv(s) && s.phase == LobbyOpen && IsCandidate(s.players[i])
    requires s.joinDeadline == 0 || now < s.joinDeadline
    ensures MaybeAdmit(s, i, now).players[i].connected <==> Takes(s.players[i], JoinLines(s, i, now))
  {
    var p, u := s.players[i], WithoutOutput(s, i);
    assert PlayerOk(p, s.nextId);
    assert |p.name| < MAX_NAME_LENGTH;
    EmptiedSame(s, i);
    hide Admitted, Broadcast, AdmittedLines, Emptied, EnqueuedAll, Records, PlayerOk;
    if s.joinDeadline != 0 {
      AdmittedIff(s, u, i, now);
    } else {
      OpeningShort();
      ShortLine(OPENING);
      OpenedSound(s, i, now);
      var s0, u0 := s.(joinDeadline := now + JOIN_WINDOW_SECONDS), u.(joinDeadline := now + JOIN_WINDOW_SECONDS);
      var b := Opened(s, now);
      LobbyBroadcast(s0, OPENING, now);
      EnqueuedAllCons(p.outbuf, OPENING, AdmittedLines(Opened(u, now), i, now));
      assert u.players[i].outbuf == "";
      hide Enqueued;
      if Enqueued(p.outbuf, OPENING).Some? {
        BroadcastSame(s0, u0, i, OPENING, now);
        AdmittedIff(b, Opened(u, now), i, now);
      } else {
        assert !b.players[i].connected;
        AdmittedJoins(b, i, now);
      }
    }
  }
}
