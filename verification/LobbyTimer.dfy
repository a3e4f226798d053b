/** When the lobby timer runs: an admission loses it exactly when some buffer is too full for its
    announcement and the candidate itself has room for all that it is sent; and a run of a fresh
    server in which that happens. */
module LobbyTimer {
  import opened Common
  import opened Text
  import opened Protocol
  import opened Game
  import opened ServerState
  import opened ServerCommands
  import opened ServerInvariant
  import opened ServerRuns
  import opened RunInvariant
  import opened MatchRuns
  import opened Mail
  import opened Admissions
  import opened Joining

  /** What a lone candidate is sent during its admission when its lobby has lost the timer. */
  function LoneJoinLines(p: Player): seq<string> {
    [OPENING, "JOINED_MATCH", JoinedLine(p.name)] + LoneSnapshot(p.(admitted := true, waiting := true))
  }

  function LoneSnapshot(p: Player): seq<string> {
    ["STATE_BEGIN", "LOBBY_WAITING", PlayerLine(p), "STATE_END"]
  }

  /** The admission of the candidate in slot `i` leaves it admitted, in a lobby without a timer. */
  predicate LosesTimer(s: Server, i: Slot) {
    && s.joinDeadline == 0
    && !AllHaveRoom(s.players, OPENING)
    && EnqueuedAll(s.players[i].outbuf, LoneJoinLines(s.players[i])).Some?
  }

  // ---------------------------------------------------------------- what the candidate is sent

  ghost predicate OnlyAdmitted(ps: seq<Player>, i: nat) {
    && i < |ps| && IsAdmitted(ps[i])
    && forall k :: 0 <= k < |ps| && k != i ==> !IsAdmitted(ps[k])
  }

  lemma {:induction false} NoLines(ps: seq<Player>)
    requires forall k :: 0 <= k < |ps| ==> !IsAdmitted(ps[k])
    ensures PlayerLines(ps) == []
  {
    if ps != [] {
      assert forall k :: 0 <= k < |ps| - 1 ==> ps[..|ps| - 1][k] == ps[k];
      NoLines(ps[..|ps| - 1]);
    }
  }

  lemma {:induction false} LoneLine(ps: seq<Player>, i: nat)
    requires OnlyAdmitted(ps, i)
    ensures PlayerLines(ps) == [PlayerLine(ps[i])]
  {
    hide PlayerLine, IsAdmitted;
    var before := ps[..|ps| - 1];
    assert forall k :: 0 <= k < |before| ==> before[k] == ps[k];
    if i == |before| {
      NoLines(before);
    } else {
      LoneLine(before, i);
      assert [PlayerLine(ps[i])] + [] == [PlayerLine(ps[i])];
    }
  }

  lemma LoneSnapshotLines(s: Server, i: Slot, now: nat)
    requires s.phase == LobbyOpen && s.joinDeadline == 0 && OnlyAdmitted(s.players, i)
    ensures SnapshotLines(s, s.players[i], now) == LoneSnapshot(s.players[i])
  {
    hide PlayerLine;
    LoneLine(s.players, i);
    assert HeaderLines(s, s.players[i], now) == ["LOBBY_WAITING"];
  }

  lemma LinesIgnoreOutput(p: Player, outbuf: string)
    ensures LoneSnapshot(p.(outbuf := outbuf)) == LoneSnapshot(p)
  {
  }

  lemma PrunedOnlyAdmitted(ps: Table, qs: Table, i: Slot)
    requires Pruned(ps, qs) && OnlyAdmitted(ps, i) && qs[i].connected
    ensures OnlyAdmitted(qs, i)
  {
  }

  /** Without a timer, and with nobody else admitted, a candidate is shown alone. */
  lemma LoneAdmission(b: Server, i: Slot, now: nat)
    requires b.phase == LobbyOpen && b.joinDeadline == 0 && IsCandidate(b.players[i]) && |b.players[i].name| < MAX_NAME_LENGTH
    requires !HasAdmitted(b.players)
    ensures var p := b.players[i];
            AdmittedLines(b, i, now) == ["JOINED_MATCH", JoinedLine(p.name)] + LoneSnapshot(p.(admitted := true, waiting := true))
  {
    var p, line := b.players[i], JoinedLine(b.players[i].name);
    var m0 := Marked(b, i, "");
    var m := Broadcast(m0, line, now);
    var v := SnapshotsUpTo(m, i, now);
    ShortLine(line);
    MarkedSlot(b, i, "");
    LobbyBroadcast(m0, line, now);
    LoneTold(b.players, m0.players, i, line);
    SnapshotsPrune(m, i, now);
    SnapshotsSameSelf(m, i, now);
    hide Broadcast, SnapshotsUpTo, SnapshotLines, LoneSnapshot, Delivered, ToldTable, Pruned, Enqueued, HasAdmitted;
    PrunedOnlyAdmitted(m.players, v.players, i);
    LoneSnapshotLines(v, i, now);
    var q := p.(admitted := true, waiting := true);
    assert v.players[i] == q.(outbuf := v.players[i].outbuf);
    LinesIgnoreOutput(q, v.players[i].outbuf);
  }

  /** A slot marked among others of which none is admitted, after a line that it takes. */
  lemma LoneTold(ps: Table, qs: Table, i: Slot, line: string)
    requires IsCandidate(ps[i]) && !HasAdmitted(ps) && Enqueued("", line).Some?
    requires qs == ps[i := ps[i].(admitted := true, waiting := true).(outbuf := "")]
    ensures OnlyAdmitted(ToldTable(qs, line), i)
    ensures ToldTable(qs, line)[i] == ps[i].(admitted := true, waiting := true, outbuf := ToldTable(qs, line)[i].outbuf)
  {
    var t := ToldTable(qs, line);
    forall k: Slot | k != i
      ensures !IsAdmitted(t[k])
    {
      assert !IsAdmitted(ps[k]);
    }
  }

  /** The first candidate of a lobby whose announcement of the timer drops somebody. */
  lemma UnannouncedAdmission(s: Server, i: Slot, now: nat)
    requires Inv(s) && s.phase == LobbyOpen && s.joinDeadline == 0 && IsCandidate(s.players[i])
    requires !HasAdmitted(s.players) && !AllHaveRoom(s.players, OPENING)
    ensures MaybeAdmit(s, i, now).players[i].connected <==>
            EnqueuedAll(s.players[i].outbuf, LoneJoinLines(s.players[i])).Some?
  {
    var p := s.players[i];
    AdmissionIff(s, i, now);
    EnqueuedAllCons(p.outbuf, OPENING, AdmittedLines(Opened(WithoutOutput(s, i), now), i, now));
    var rest := ["JOINED_MATCH", JoinedLine(p.name)] + LoneSnapshot(p.(admitted := true, waiting := true));
    assert LoneJoinLines(p) == [OPENING] + rest;
    EnqueuedAllCons(p.outbuf, OPENING, rest);
    hide EnqueuedAll, LoneSnapshot, Opened, AdmittedLines, Inv, MaybeAdmit;
    if Enqueued(p.outbuf, OPENING).Some? {
      UnannouncedLines(s, i, now);
    }
  }

  lemma UnannouncedLines(s: Server, i: Slot, now: nat)
    requires Inv(s) && s.phase == LobbyOpen && s.joinDeadline == 0 && IsCandidate(s.players[i])
    requires !HasAdmitted(s.players) && !AllHaveRoom(s.players, OPENING) && Enqueued(s.players[i].outbuf, OPENING).Some?
    ensures var p := s.players[i];
            AdmittedLines(Opened(WithoutOutput(s, i), now), i, now) ==
            ["JOINED_MATCH", JoinedLine(p.name)] + LoneSnapshot(p.(admitted := true, waiting := true))
  {
    var p, u := s.players[i], WithoutOutput(s, i);
    SoundPlayer(s, i);
    var b := Opened(u, now);
    OpeningShort();
    ShortLine(OPENING);
    LobbyBroadcast(u.(joinDeadline := now + JOIN_WINDOW_SECONDS), OPENING, now);
    OpenedEmpty(s.players, u.players, i);
    hide Enqueued, LoneSnapshot, AdmittedLines, Inv, ToldTable, Broadcast;
    var q := b.players[i];
    LoneAdmission(b, i, now);
    LinesIgnoreOutput(p.(admitted := true, waiting := true), q.outbuf);
  }

  /** The table after an announcement that somebody else does not take. */
  lemma OpenedEmpty(ps: Table, qs: Table, i: Slot)
    requires qs == ps[i := Emptied(ps[i])] && ps[i].connected && !HasAdmitted(ps)
    requires !AllHaveRoom(ps, OPENING) && Enqueued(ps[i].outbuf, OPENING).Some? && Enqueued("", OPENING).Some?
    ensures var t := ToldTable(qs, OPENING);
            && Connected(t) != Connected(qs) && AdmittedCount(t) == 0 && !HasAdmitted(t)
            && t[i] == ps[i].(outbuf := t[i].outbuf)
  {
    var t := ToldTable(qs, OPENING);
    var k :| 0 <= k < MAX_PLAYERS && ps[k].connected && Enqueued(ps[k].outbuf, OPENING).None?;
    assert k != i && qs[k] == ps[k] && t[k] == EMPTY_SLOT;
    assert k in Connected(qs) && k !in Connected(t);
    forall j: Slot
      ensures !IsAdmitted(t[j])
    {
      assert !IsAdmitted(ps[j]);
    }
    CountZeroIff(t, IsAdmitted);
  }

  // ---------------------------------------------------------------- one admission

  /** One admission, exactly: it leaves the timer exact unless it is the first of its lobby, some
      buffer is too full for the announcement of the timer, and the candidate's own buffer has room
      for the announcement, its confirmations and a snapshot that shows it alone. */
  lemma AdmissionTimerExactIff(s: Server, i: Slot, now: nat)
    requires Inv(s) && TimerExact(s) && s.phase == LobbyOpen && IsCandidate(s.players[i])
    requires s.joinDeadline == 0 || now < s.joinDeadline
    ensures TimerExact(MaybeAdmit(s, i, now)) <==> !LosesTimer(s, i)
    ensures LosesTimer(s, i) ==>
              IsAdmitted(MaybeAdmit(s, i, now).players[i]) && MaybeAdmit(s, i, now).joinDeadline == 0
  {
    MaybeAdmitDecides(s, i, now);
    var r := MaybeAdmit(s, i, now);
    hide MaybeAdmit, Inv, EnqueuedAll, AllHaveRoom, LoneJoinLines;
    if s.joinDeadline == 0 {
      OpenedSound(s, i, now);
      JoinedOnly(s, Opened(s, now), i, r);
      if !AllHaveRoom(s.players, OPENING) {
        UnannouncedAdmission(s, i, now);
      }
    } else {
      JoinedTimer(s, i, r);
    }
  }

  lemma JoinedOnly(s: Server, b: Server, i: Slot, r: Server)
    requires !HasAdmitted(s.players) && Kept(s, b) && Joined(b, i, r)
    ensures HasAdmitted(r.players) <==> r.players[i].connected
    ensures r.players[i].connected ==> IsAdmitted(r.players[i])
    ensures r.phase == LobbyOpen && r.joinDeadline == if HasAdmitted(r.players) then b.joinDeadline else 0
  {
    hide Records;
    forall k | 0 <= k < MAX_PLAYERS && k != i
      ensures !IsAdmitted(r.players[k])
    {
      assert Survives(s.players[k], b.players[k]) && Survives(b.players[k], r.players[k]);
    }
    if r.players[i].connected {
      assert PlayerOk(r.players[i], r.nextId) by { SoundPlayer(r, i); }
      assert IsAdmitted(r.players[i]);
    }
  }

  lemma JoinedTimer(s: Server, i: Slot, r: Server)
    requires Joined(s, i, r)
    ensures r.phase == LobbyOpen && r.joinDeadline == if HasAdmitted(r.players) then s.joinDeadline else 0
  {
  }

  // ---------------------------------------------------------------- one event

  /** The state that an accepted CHOICE or SPAWN hands over to the admission. */
  function Requested(s: Server, e: Event): Option<Server> {
    if !e.Line? || !IsRegistered(s.players[e.slot]) || s.players[e.slot].admitted then None else
      var i, p := e.slot, s.players[e.slot];
      match e.command
      case Choose(arg) =>
        if ParseChoice(arg).None? then None else
          var c := ParseChoice(arg).value;
          Some(WithPlayer(s, i, Told(p.(choice := c, choiceChosen := true), ChoiceOkLine(c))))
      case Spawn(Some((x, y))) =>
        if !InBox(x, y) || SpawnTaken(s.players, x.Floor, y.Floor, i) then None else
          Some(WithPlayer(s, i, Told(p.(x := x, y := y, spawnChosen := true), SpawnOkLine(x, y))))
      case _ => None
  }

  /** What a caller can see before the event: it admits the first player of the lobby and loses the timer. */
  predicate TimerLostBy(s: Server, e: Event) {
    && s.phase == LobbyOpen
    && Requested(s, e).Some?
    && var s1 := Requested(s, e).value; IsCandidate(s1.players[e.slot]) && LosesTimer(s1, e.slot)
  }

  lemma RequestHandled(s: Server, e: Event)
    requires e.Line? && MayAdmit(e) && s.players[e.slot].connected && Requested(s, e).Some?
    ensures HandleCommand(s, e.slot, e.command, e.now) == MaybeAdmit(Requested(s, e).value, e.slot, e.now)
  {
    hide MaybeAdmit, Told, SpawnTaken, ParseChoice;
  }

  lemma RequestRefused(s: Server, e: Event)
    requires Inv(s) && MayAdmit(e) && s.players[e.slot].connected && Requested(s, e).None?
    ensures Advances(s, HandleCommand(s, e.slot, e.command, e.now))
  {
    hide MaybeAdmit, Told, SpawnTaken, ParseChoice, Tell, Advances, Inv;
    TellAdvances(s, e.slot, "ERROR register_first");
    TellAdvances(s, e.slot, "ERROR already_joined");
    TellAdvances(s, e.slot, "ERROR bad_choice");
    TellAdvances(s, e.slot, "ERROR usage_SPAWN_x_y");
    TellAdvances(s, e.slot, "ERROR bad_spawn");
    TellAdvances(s, e.slot, "ERROR spawn_taken");
  }

  lemma RequestRecorded(s: Server, e: Event)
    requires Inv(s) && e.Line? && s.players[e.slot].connected && Requested(s, e).Some?
    ensures Advances(s, Requested(s, e).value) && Inv(Requested(s, e).value)
    ensures Requested(s, e).value == s.(players := Requested(s, e).value.players)
    ensures Requested(s, e).value.players[e.slot].connected
  {
    hide Told, SpawnTaken, ParseChoice;
    var i, p, q := e.slot, s.players[e.slot], Requested(s, e).value.players[e.slot];
    assert PlayerOk(p, s.nextId);
    match e.command {
      case Choose(arg) => ToldOk(p.(choice := ParseChoice(arg).value, choiceChosen := true), ChoiceOkLine(ParseChoice(arg).value));
      case Spawn(Some((x, y))) => ToldOk(p.(x := x, y := y, spawnChosen := true), SpawnOkLine(x, y));
    }
    assert PlayerOk(q, s.nextId);
    PlayerChangeAdvances(s, i, q);
  }

  /** From an exact timer, one event leaves an exact timer unless it is an accepted CHOICE or SPAWN
      whose admission loses it; and then it does lose it. */
  lemma EventTimerExactIff(w: World, e: Event, root: real -> real)
    requires Inv(w.server) && TimerExact(w.server)
    ensures TimerExact(Step(w, e, root).server) <==> !TimerLostBy(w.server, e)
  {
    var s := w.server;
    if !MayAdmit(e) || !s.players[e.slot].connected {
      hide Inv, LosesTimer;
      StepKeepsTimerExact(w, e, root);
    } else if Requested(s, e).None? {
      hide Inv, Requested, HandleCommand;
      RequestRefused(s, e);
    } else {
      RequestHandled(s, e);
      RequestRecorded(s, e);
      hide Requested, HandleCommand, MaybeAdmit, LosesTimer;
      var s1 := Requested(s, e).value;
      AdmissionTimer(s1, e.slot, e.now);
    }
  }

  lemma AdmissionTimer(s: Server, i: Slot, now: nat)
    requires Inv(s) && TimerExact(s) && s.players[i].connected
    ensures TimerExact(MaybeAdmit(s, i, now)) <==> !(s.phase == LobbyOpen && IsCandidate(s.players[i]) && LosesTimer(s, i))
  {
    if IsCandidate(s.players[i]) {
      MaybeAdmitDecides(s, i, now);
      hide MaybeAdmit, Inv, LosesTimer, Joined;
      if s.phase == LobbyOpen && (s.joinDeadline == 0 || now < s.joinDeadline) {
        AdmissionTimerExactIff(s, i, now);
      } else if s.phase == LobbyOpen {
        TimerRuns(s, i);
      }
    }
  }

  lemma TimerRuns(s: Server, i: Slot)
    requires s.joinDeadline != 0
    ensures !LosesTimer(s, i)
  {
  }

  /** No event of the run loses the timer. */
  ghost predicate TimerKept(w: World, events: seq<Event>, root: real -> real)
    decreases |events|
  {
    events == [] ||
      var n := |events| - 1;
      TimerKept(w, events[..n], root) && !TimerLostBy(Run(w, events[..n], root).server, events[n])
  }

  /** Over a whole run the timer stays exact as long as no event loses it, and the first event that
      does leaves an admitted player in a lobby that will not close. */
  lemma {:induction false} RunTimerExact(w: World, events: seq<Event>, root: real -> real)
    requires Inv(w.server) && TimerExact(w.server)
    ensures TimerKept(w, events, root) ==> TimerExact(Run(w, events, root).server)
    ensures events != [] && TimerKept(w, events[..|events| - 1], root) && !TimerKept(w, events, root) ==>
              !TimerExact(Run(w, events, root).server)
    decreases |events|
  {
    hide Inv, Step, TimerExact, TimerLostBy;
    if events != [] {
      var n := |events| - 1;
      RunTimerExact(w, events[..n], root);
      RunKeepsInv(w, events[..n], root);
      if TimerKept(w, events[..n], root) {
        EventTimerExactIff(Run(w, events[..n], root), events[n], root);
      }
    }
  }

  // ---------------------------------------------------------------- a run that loses it

  const GREETING := "INFO connected_send_HELLO_name"

  /** Two clients connect. The first gives its name and chooses; the second reads nothing and sends
      `n` lines that are no commands, each of which is answered. */
  function CrowdingRun(now: nat, n: nat): seq<Event> {
    [Accept, Accept, Line(0, Hello(Some("a")), now), Line(0, Choose(Some("R")), now)] + seq(n, _ => Line(1, Unknown, now))
  }

  /** Enough of them to leave less room than the announcement of the timer takes. */
  const UNREAD := 453

  function LosingRun(now: nat): seq<Event> {
    CrowdingRun(now, UNREAD) + [Line(0, Spawn(Some((0.0, 0.0))), now)]
  }

  ghost predicate Crowded(s: Server, n: nat) {
    var p, q := s.players[0], s.players[1];
    && s == EmptyServer().(players := s.players, nextId := 3)
    && p == NewPlayer(1).(registered := true, name := "a", choiceChosen := true, choice := 'R', outbuf := p.outbuf)
    && |p.outbuf| <= 2000
    && q == NewPlayer(2).(outbuf := q.outbuf) && |q.outbuf| == 31 + 18 * n
    && forall k :: 2 <= k < MAX_PLAYERS ==> s.players[k] == UNUSED_SLOT
  }

  lemma RunNext(w: World, events: seq<Event>, e: Event, root: real -> real)
    ensures Run(w, events + [e], root) == Step(Run(w, events, root), e, root)
  {
    assert (events + [e])[..|events|] == events;
  }

  function Greeted(id: int): Player { NewPlayer(id).(outbuf := Frame(GREETING)) }

  lemma GreetedIs(id: int)
    ensures Told(NewPlayer(id), GREETING) == Greeted(id)
  {
    assert "" + Frame(GREETING) == Frame(GREETING);
  }

  lemma TwoAccepted(clock: real, root: real -> real)
    ensures var e := EmptyServer();
            Run(StartOfServer(clock), [Accept, Accept], root).server
            == e.(nextId := 3, players := e.players[0 := Greeted(1)][1 := Greeted(2)])
  {
    var w := StartOfServer(clock);
    var e := EmptyServer();
    var s1 := e.(nextId := 2, players := e.players[0 := Greeted(1)]);
    GreetedIs(1);
    GreetedIs(2);
    hide Told, Greeted;
    assert FreeSlot(e.players) == 0 by { FreeSlotIs(e.players, 0); }
    assert Accepted(e) == s1;
    assert FreeSlot(s1.players) == 1 by { FreeSlotIs(s1.players, 1); }
    RunNext(w, [], Accept, root);
    assert [] + [Accept] == [Accept];
    RunNext(w, [Accept], Accept, root);
  }

  lemma FreeSlotIs(ps: Table, i: nat)
    requires i < MAX_PLAYERS && !ps[i].connected && forall k :: 0 <= k < i ==> ps[k].connected
    ensures FreeSlot(ps) == i
  {
  }

  lemma {:induction false} ToldAllLength(p: Player, lines: seq<string>)
    ensures |ToldAll(p, lines).outbuf| <= |p.outbuf| + MAX_LINE * |lines|
    decreases |lines|
  {
    if lines != [] {
      ToldAllLength(Told(p, lines[0]), lines[1..]);
    }
  }

  lemma FirstChooses(clock: real, now: nat, root: real -> real)
    ensures Crowded(Run(StartOfServer(clock), CrowdingRun(now, 0), root).server, 0)
  {
    var w := StartOfServer(clock);
    var start := [Accept, Accept];
    TwoAccepted(clock, root);
    var w2 := Run(w, start, root);
    var hello, choose := Line(0, Hello(Some("a")), now), Line(0, Choose(Some("R")), now);
    RunNext(w, start, hello, root);
    RunNext(w, start + [hello], choose, root);
    assert start + [hello] + [choose] == CrowdingRun(now, 0);
    HelloOfFirst(w2.server, now);
    hide HandleCommand;
    ChoiceOfFirst(Step(w2, hello, root).server, now);
  }

  lemma HelloOfFirst(s: Server, now: nat)
    requires var e := EmptyServer(); s == e.(nextId := 3, players := e.players[0 := Greeted(1)][1 := Greeted(2)])
    ensures var r := HandleCommand(s, 0, Hello(Some("a")), now);
            && r == s.(players := s.players[0 := r.players[0]])
            && r.players[0] == NewPlayer(1).(registered := true, name := "a", outbuf := r.players[0].outbuf)
            && |r.players[0].outbuf| <= 1500
  {
    hide ToldAll;
    var p := s.players[0];
    var q := FreshProgress(p.(name := "a", registered := true));
    var lines := [WelcomeLine(p.id), "SPECTATING"] + LobbyStatusLines(s, now);
    assert !NameTaken(s.players, "a");
    ToldAllOk(q, lines);
    ToldAllLength(q, lines);
  }

  lemma ChoiceOfFirst(s: Server, now: nat)
    requires s == EmptyServer().(nextId := 3, players := s.players) && s.players[1] == Greeted(2)
    requires s.players[0] == NewPlayer(1).(registered := true, name := "a", outbuf := s.players[0].outbuf)
    requires |s.players[0].outbuf| <= 1500
    requires forall k :: 2 <= k < MAX_PLAYERS ==> s.players[k] == UNUSED_SLOT
    ensures Crowded(HandleCommand(s, 0, Choose(Some("R")), now), 0)
  {
    assert ParseChoice(Some("R")) == Some('R');
    hide ParseChoice;
    var q := s.players[0].(choice := 'R', choiceChosen := true);
    ToldOk(q, ChoiceOkLine('R'));
    assert |Told(q, ChoiceOkLine('R')).outbuf| <= 2000;
    assert |Greeted(2).outbuf| == 31;
  }

  lemma {:induction false} SecondCrowds(clock: real, now: nat, n: nat, root: real -> real)
    requires n <= UNREAD
    ensures Crowded(Run(StartOfServer(clock), CrowdingRun(now, n), root).server, n)
  {
    if n == 0 {
      FirstChooses(clock, now, root);
    } else {
      SecondCrowds(clock, now, n - 1, root);
      var e := Line(1, Unknown, now);
      assert CrowdingRun(now, n) == CrowdingRun(now, n - 1) + [e];
      RunNext(StartOfServer(clock), CrowdingRun(now, n - 1), e, root);
      hide Run, CrowdingRun;
      OneMoreReply(Run(StartOfServer(clock), CrowdingRun(now, n - 1), root).server, n - 1, now);
    }
  }

  lemma OneMoreReply(s: Server, n: nat, now: nat)
    requires Crowded(s, n) && n < UNREAD
    ensures s.players[1].connected && Crowded(HandleCommand(s, 1, Unknown, now), n + 1)
  {
    var q := s.players[1];
    var line := "ERROR bad_command";
    assert |line| == 17;
    assert Told(q, line) == q.(outbuf := q.outbuf + Frame(line));
  }

  /** The lobby timer is not always exact. In this run of a fresh server the SPAWN of the first
      player starts the timer, but its announcement does not fit the buffer of the second one; that
      drop is re-evaluated before the first player is admitted, finds nobody admitted and stops the
      timer. So the run ends with an admitted player in a lobby that will not close. */
  lemma TimerCanBeLost(clock: real, now: nat, root: real -> real)
    ensures var before, after := Run(StartOfServer(clock), CrowdingRun(now, UNREAD), root).server,
                                 Run(StartOfServer(clock), LosingRun(now), root).server;
            && TimerExact(before) && TimerLostBy(before, LosingRun(now)[|LosingRun(now)| - 1])
            && after.phase == LobbyOpen && IsAdmitted(after.players[0]) && after.joinDeadline == 0
  {
    var w := Run(StartOfServer(clock), CrowdingRun(now, UNREAD), root);
    var e := Line(0, Spawn(Some((0.0, 0.0))), now);
    SecondCrowds(clock, now, UNREAD, root);
    ReachableStates(clock, CrowdingRun(now, UNREAD), root);
    RunNext(StartOfServer(clock), CrowdingRun(now, UNREAD), e, root);
    hide Run, CrowdingRun, Inv;
    LastSpawn(w.server, now);
  }

  lemma LastSpawn(s: Server, now: nat)
    requires Inv(s) && Crowded(s, UNREAD)
    ensures var e, r := Line(0, Spawn(Some((0.0, 0.0))), now), HandleCommand(s, 0, Spawn(Some((0.0, 0.0))), now);
            && s.players[0].connected && TimerExact(s) && TimerLostBy(s, e)
            && r.phase == LobbyOpen && IsAdmitted(r.players[0]) && r.joinDeadline == 0
  {
    var e := Line(0, Spawn(Some((0.0, 0.0))), now);
    var s1 := LastRequest(s, now);
    RequestRecorded(s, e);
    RequestHandled(s, e);
    hide Requested, Crowded, HandleCommand, MaybeAdmit, Inv, Takes, JoinLines;
    RoomToJoin(s1, 0, now);
    CandidateJoins(s1, 0, now);
    NoRoomForSecond(s1);
    UnannouncedAdmission(s1, 0, now);
    AdmissionTimerExactIff(s1, 0, now);
    MaybeAdmitInLobby(s1, 0, now);
  }

  lemma LastRequest(s: Server, now: nat) returns (s1: Server)
    requires Crowded(s, UNREAD)
    ensures TimerExact(s) && s.players[0].connected
    ensures Requested(s, Line(0, Spawn(Some((0.0, 0.0))), now)) == Some(s1)
    ensures s1 == s.(players := s1.players) && s1.players[1] == s.players[1] && |s1.players[1].outbuf| == 31 + 18 * UNREAD
    ensures s1.players[1].connected && s1.phase == LobbyOpen && s1.joinDeadline == 0 && !HasAdmitted(s1.players)
    ensures IsCandidate(s1.players[0]) && HasRoom(s1.players[0], JOIN_ROOM) && LobbyInRange(s1, now)
  {
    var p := s.players[0];
    var q := p.(x := 0.0, y := 0.0, spawnChosen := true);
    ToldOk(q, SpawnOkLine(0.0, 0.0));
    assert |Told(q, SpawnOkLine(0.0, 0.0)).outbuf| <= 2000 + MAX_LINE;
    hide SpawnOkLine, Told;
    assert !SpawnTaken(s.players, 0, 0, 0);
    s1 := WithPlayer(s, 0, Told(q, SpawnOkLine(0.0, 0.0)));
  }

  lemma NoRoomForSecond(s: Server)
    requires s.players[1].connected && |s.players[1].outbuf| == 31 + 18 * UNREAD
    ensures !AllHaveRoom(s.players, OPENING)
  {
    OpeningShort();
    assert Enqueued(s.players[1].outbuf, OPENING).None?;
  }

  lemma MaybeAdmitInLobby(s: Server, i: Slot, now: nat)
    requires Inv(s) && s.phase == LobbyOpen && s.players[i].connected
    ensures MaybeAdmit(s, i, now).phase == LobbyOpen
  {
    MaybeAdmitAdmits(s, i, now);
  }
}
