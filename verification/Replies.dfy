/** What a client is answered, command by command. A refused command changes nothing but its sender's
    output; the others are recorded and confirmed. */
module Replies {
  import opened Common
  import opened Text
  import opened Protocol
  import opened ServerState
  import opened ServerCommands
  import opened ServerInvariant
  import opened RunInvariant
  import Joining
  import Results

  /** The only change is that slot `i` is sent the line, if it has room for it. */
  ghost predicate Answered(s: Server, r: Server, i: Slot, line: string) {
    var p, q := s.players[i], r.players[i];
    && r == s.(players := s.players[i := q]) && q == p.(outbuf := q.outbuf)
    && q.outbuf == if |p.outbuf| + |line| + 1 <= OUTBUF_SIZE then p.outbuf + line + "\n" else p.outbuf
  }

  /** Another admitted player, with a spawn, stands on the corner of the tile that holds (x, y). */
  ghost predicate IsOccupied(ps: Table, i: Slot, x: real, y: real) {
    exists k: Slot :: k != i && IsAdmitted(ps[k]) && ps[k].spawnChosen && ps[k].x == x.Floor as real && ps[k].y == y.Floor as real
  }

  /** Why a command is refused, if it is. */
  ghost function Refusal(s: Server, i: Slot, c: Command): Option<string> {
    var p := s.players[i];
    match c
    case Unknown => Some("ERROR bad_command")
    case Hello(name) =>
      if p.registered then Some("ERROR already_registered")
      else if name.None? then Some("ERROR usage_HELLO_name")
      else if exists k: Slot :: s.players[k].connected && s.players[k].registered && s.players[k].name == name.value then Some("ERROR duplicate_name")
      else None
    case Choose(arg) =>
      if !p.registered then Some("ERROR register_first")
      else if p.admitted then Some("ERROR already_joined")
      else if arg.Some? && arg.value in ["R", "P", "S", "r", "p", "s"] then None
      else Some("ERROR bad_choice")
    case Spawn(at) =>
      if !p.registered then Some("ERROR register_first")
      else if p.admitted then Some("ERROR already_joined")
      else if at.None? then Some("ERROR usage_SPAWN_x_y")
      else if !(0.0 <= at.value.0 < 10.0 && 0.0 <= at.value.1 < 10.0) then Some("ERROR bad_spawn")
      else if IsOccupied(s.players, i, at.value.0, at.value.1) then Some("ERROR spawn_taken")
      else None
    case PickAgain(arg) =>
      if s.phase != Repick then Some("ERROR not_in_repick_phase")
      else if !(p.registered && p.admitted && p.alive) then Some("ERROR not_alive")
      else if p.repickSubmitted then Some("ERROR already_repicked")
      else if arg.Some? && arg.value in ["R", "P", "S", "r", "p", "s"] then None
      else Some("ERROR bad_choice")
    case Rematch => if s.phase != GameOver then Some("ERROR rematch_not_available") else None
    case GetState => None
    case Quit => None
  }

  lemma TellAnswers(s: Server, i: Slot, line: string)
    requires |line| < MAX_LINE - 2
    ensures Answered(s, Tell(s, i, line), i, line)
  {
    ToldAnswers(s.players[i], line);
    hide Told;
  }

  lemma ToldAnswers(p: Player, line: string)
    requires |line| < MAX_LINE - 2
    ensures var q := Told(p, line);
            && q == p.(outbuf := q.outbuf)
            && q.outbuf == if |p.outbuf| + |line| + 1 <= OUTBUF_SIZE then p.outbuf + line + "\n" else p.outbuf
  {
    if Enqueued(p.outbuf, line).Some? {
      assert p.outbuf + Frame(line) == p.outbuf + line + "\n";
      assert Told(p, line) == p.(outbuf := p.outbuf + line + "\n");
      hide Told;
    } else {
      assert p == p.(outbuf := p.outbuf);
      assert Told(p, line) == p;
      hide Told;
    }
  }

  lemma LettersAreChoices(arg: Option<string>)
    ensures ParseChoice(arg).Some? <==> arg.Some? && arg.value in ["R", "P", "S", "r", "p", "s"]
  {
    if ParseChoice(arg).Some? {
      assert NamesType(arg.value, ParseChoice(arg).value);
    }
    assert forall a, c :: NamesType(a, c) ==> a in ["R", "P", "S", "r", "p", "s"];
    hide ParseChoice;
    if arg.Some? && arg.value in ["R", "P", "S", "r", "p", "s"] {
      var c := if arg.value in ["R", "r"] then 'R' else if arg.value in ["P", "p"] then 'P' else 'S';
      assert NamesType(arg.value, c);
    }
  }

  lemma OccupiedIsTaken(ps: Table, i: Slot, x: real, y: real)
    ensures IsOccupied(ps, i, x, y) <==> SpawnTaken(ps, x.Floor, y.Floor, i)
  {
    Joining.FreeIsNotTaken(ps, i, x.Floor, y.Floor);
    hide IsAdmitted, SpawnTaken;
  }

  lemma NameIsTaken(ps: Table, name: string)
    ensures NameTaken(ps, name) <==> exists k: Slot :: ps[k].connected && ps[k].registered && ps[k].name == name
  {
    if NameTaken(ps, name) {
      var k: Slot :| IsRegistered(ps[k]) && ps[k].name == name;
      assert ps[k].connected;
    }
  }

  /** A refused command is answered with the reason, and changes nothing else. */
  lemma RefusedCommand(s: Server, i: Slot, c: Command, now: nat)
    requires Refusal(s, i, c).Some?
    ensures Answered(s, HandleCommand(s, i, c, now), i, Refusal(s, i, c).value)
  {
    TellAnswers(s, i, Refusal(s, i, c).value) by { RefusalShort(s, i, c); }
    hide Answered, Tell, SpawnTaken, IsOccupied, NameTaken, ParseChoice;
    match c {
      case Hello(name) => if name.Some? { NameIsTaken(s.players, name.value); }
      case Choose(arg) => LettersAreChoices(arg);
      case Spawn(at) => if at.Some? { OccupiedIsTaken(s.players, i, at.value.0, at.value.1); }
      case PickAgain(arg) => LettersAreChoices(arg);
      case _ =>
    }
  }

  lemma RefusalShort(s: Server, i: Slot, c: Command)
    requires Refusal(s, i, c).Some?
    ensures |Refusal(s, i, c).value| < MAX_LINE - 2
  {
    hide IsOccupied;
  }

  // ---------------------------------------------------------------- CHOICE and SPAWN

  /** An accepted CHOICE records the type whose letter the client sent, and says so. If the client has
      a place already, an admission follows. */
  lemma AcceptedChoice(s: Server, i: Slot, arg: string, c: char, now: nat) returns (u: Server)
    requires s.players[i].registered && !s.players[i].admitted && NamesType(arg, c)
    ensures Answered(WithPlayer(s, i, s.players[i].(choice := c, choiceChosen := true)), u, i, "CHOICE_OK " + [c])
    ensures HandleCommand(s, i, Choose(Some(arg)), now) == MaybeAdmit(u, i, now)
    ensures !s.players[i].spawnChosen ==> MaybeAdmit(u, i, now) == u
  {
    var q := s.players[i].(choice := c, choiceChosen := true);
    assert ParseChoice(Some(arg)) == Some(c);
    TellAnswers(WithPlayer(s, i, q), i, ChoiceOkLine(c));
    u := Tell(WithPlayer(s, i, q), i, ChoiceOkLine(c));
    SameSlot(s, i, q, Told(q, ChoiceOkLine(c)));
    hide Told, Answered, ParseChoice, Broadcast, Admitted, Refused;
  }

  lemma SameSlot(s: Server, i: Slot, p: Player, q: Player)
    ensures WithPlayer(WithPlayer(s, i, p), i, q) == WithPlayer(s, i, q)
  {
    assert s.players[i := p][i := q] == s.players[i := q];
  }

  /** So does an accepted SPAWN with the place. */
  lemma AcceptedSpawn(s: Server, i: Slot, x: real, y: real, now: nat) returns (u: Server)
    requires s.players[i].registered && Refusal(s, i, Spawn(Some((x, y)))) == None
    ensures Answered(WithPlayer(s, i, s.players[i].(x := x, y := y, spawnChosen := true)), u, i,
                     "SPAWN_OK " + (Fixed1(x) + (" " + Fixed1(y))))
    ensures HandleCommand(s, i, Spawn(Some((x, y))), now) == MaybeAdmit(u, i, now)
    ensures !s.players[i].choiceChosen ==> MaybeAdmit(u, i, now) == u
  {
    var q := s.players[i].(x := x, y := y, spawnChosen := true);
    OccupiedIsTaken(s.players, i, x, y);
    SpawnOkShort(x, y);
    TellAnswers(WithPlayer(s, i, q), i, SpawnOkLine(x, y));
    u := Tell(WithPlayer(s, i, q), i, SpawnOkLine(x, y));
    SameSlot(s, i, q, Told(q, SpawnOkLine(x, y)));
    hide Told, Answered, SpawnTaken, IsOccupied, Fixed1, Broadcast, Admitted, Refused;
  }

  lemma SpawnOkShort(x: real, y: real)
    requires InBox(x, y)
    ensures |SpawnOkLine(x, y)| < MAX_LINE - 2
  {
    Joining.ReplyShort('R', x, y);
  }

  /** What a SPAWN inside the board is checked against: of two players that ask for one point, the second
      is refused if its coordinates are whole, and in general exactly if somebody stands on the corner
      of the tile. */
  lemma SpawnIsChecked(s: Server, i: Slot, k: Slot, x: real, y: real)
    requires s.players[i].registered && !s.players[i].admitted && InBox(x, y)
    requires k != i && IsAdmitted(s.players[k]) && s.players[k].spawnChosen && s.players[k].x == x && s.players[k].y == y
    ensures x == x.Floor as real && y == y.Floor as real ==> Refusal(s, i, Spawn(Some((x, y)))) == Some("ERROR spawn_taken")
    ensures Refusal(s, i, Spawn(Some((x, y)))) == Some("ERROR spawn_taken") <==>
            exists j: Slot :: j != i && IsAdmitted(s.players[j]) && s.players[j].spawnChosen
                              && s.players[j].x == x.Floor as real && s.players[j].y == y.Floor as real
  {
    hide IsAdmitted;
  }

  /** An accepted SPAWN at whole coordinates is a place where no other admitted player stands. */
  lemma WholeSpawnIsFree(s: Server, i: Slot, x: real, y: real, now: nat)
    requires Inv(s) && s.players[i].connected && s.players[i].registered && !s.players[i].admitted
    requires InBox(x, y) && x == x.Floor as real && y == y.Floor as real
    requires var p, q := s.players[i], HandleCommand(s, i, Spawn(Some((x, y))), now).players[i];
             !(p.spawnChosen && p.x == x && p.y == y) && q.spawnChosen && q.x == x && q.y == y
    ensures forall k: Slot :: k != i && IsAdmitted(s.players[k]) ==> s.players[k].x != x || s.players[k].y != y
  {
    var c := Spawn(Some((x, y)));
    if Refusal(s, i, c).Some? {
      RefusedCommand(s, i, c, now);
      assert false;
    }
    forall k: Slot | k != i && IsAdmitted(s.players[k])
      ensures s.players[k].x != x || s.players[k].y != y
    {
      assert PlayerOk(s.players[k], s.nextId);
    }
  }

  // ---------------------------------------------------------------- HELLO and snapshots

  /** The seconds until a deadline, none once it has passed. */
  function Seconds(deadline: int, now: int): int { if now < deadline then deadline - now else 0 }

  /** What a new player is told about the match. */
  function WelcomeLines(s: Server, id: int, now: nat): seq<string> {
    ["WELCOME " + Decimal(id), "SPECTATING"] +
    if s.phase != LobbyOpen then ["LOBBY_CLOSED"]
    else if s.joinDeadline == 0 then ["CHOOSE_TYPE", "CHOOSE_SPAWN 10 10", "LOBBY_WAITING"]
    else ["CHOOSE_TYPE", "CHOOSE_SPAWN 10 10", "LOBBY_OPEN " + Decimal(Seconds(s.joinDeadline, now))]
  }

  /** Lines queued as far as each of them fits. */
  function Offered(pending: string, lines: seq<string>): string
    decreases |lines|
  {
    if lines == [] then pending
    else if |lines[0]| < MAX_LINE - 2 && |pending| + |lines[0]| + 1 <= OUTBUF_SIZE then Offered(pending + lines[0] + "\n", lines[1..])
    else Offered(pending, lines[1..])
  }

  lemma {:induction false} ToldAllOffers(p: Player, lines: seq<string>)
    ensures ToldAll(p, lines) == p.(outbuf := Offered(p.outbuf, lines))
    decreases |lines|
  {
    if lines == [] {
      assert p == p.(outbuf := p.outbuf);
    } else {
      var q, rest := Told(p, lines[0]), lines[1..];
      assert ToldAll(p, lines) == ToldAll(q, rest);
      OneOffered(p, lines);
      hide ToldAll, Offered, Told;
      ToldAllOffers(q, rest);
      SameOutput(p, q, Offered(q.outbuf, rest));
    }
  }

  lemma OneOffered(p: Player, lines: seq<string>)
    requires lines != []
    ensures var q := Told(p, lines[0]);
            q == p.(outbuf := q.outbuf) && Offered(p.outbuf, lines) == Offered(q.outbuf, lines[1..])
  {
    if |lines[0]| < MAX_LINE - 2 {
      ToldAnswers(p, lines[0]);
      hide Told;
    } else {
      assert Told(p, lines[0]) == p;
      assert p == p.(outbuf := p.outbuf);
      hide Told;
    }
  }

  lemma SameOutput(p: Player, q: Player, outbuf: string)
    requires q == p.(outbuf := q.outbuf)
    ensures q.(outbuf := outbuf) == p.(outbuf := outbuf)
  {
  }

  /** A HELLO with a free name registers the client under it, with nothing chosen yet, and tells it its
      id and how the match stands. */
  lemma AcceptedHello(s: Server, i: Slot, name: Name, now: nat)
    requires Inv(s) && s.players[i].connected && Refusal(s, i, Hello(Some(name))) == None
    ensures var p := s.players[i];
            HandleCommand(s, i, Hello(Some(name)), now) ==
            s.(players := s.players[i := p.(name := name, registered := true,
                                           outbuf := Offered(p.outbuf, WelcomeLines(s, p.id, now)))])
  {
    var p := s.players[i];
    NameIsTaken(s.players, name);
    assert PlayerOk(p, s.nextId);
    var q := p.(name := name, registered := true);
    assert FreshProgress(q) == q;
    ToldAllOffers(q, WelcomeLines(s, p.id, now));
    WelcomeIs(s, p.id, now);
    hide ToldAll, Offered, WelcomeLines, LobbyStatusLines, NameTaken, Inv;
  }

  lemma WelcomeIs(s: Server, id: int, now: nat)
    ensures [WelcomeLine(id), "SPECTATING"] + LobbyStatusLines(s, now) == WelcomeLines(s, id, now)
  {
    hide Decimal;
  }

  /** How the match stands, in a snapshot: the phase, the round, and the seconds left. */
  lemma SnapshotHeader(s: Server, dst: Player, now: nat)
    requires s.phase != GameOver
    ensures SnapshotLines(s, dst, now) ==
            ["STATE_BEGIN"] + ((match s.phase
                                case LobbyOpen => if s.joinDeadline == 0 then ["LOBBY_WAITING"]
                                                  else ["LOBBY_OPEN " + Decimal(Seconds(s.joinDeadline, now))]
                                case Setup => ["LOBBY_CLOSED", "SETUP_OPEN " + Decimal(Seconds(s.setupDeadline, now))]
                                case RoundActive => ["LOBBY_CLOSED", "ROUND_START " + (Decimal(s.roundNo) + (" " + Decimal(Seconds(s.roundDeadline, now))))]
                                case Repick => ["LOBBY_CLOSED", "REPICK_START"]
                                case GameOver => [])
                               + (PlayerLines(s.players) + ["STATE_END"]))
  {
    hide Decimal, PlayerLines;
  }

  /** The announcements with fixed numbers. */
  lemma FixedAnnouncements()
    ensures OPENING == "LOBBY_OPEN 60" && SetupOpenLine(SETUP_SECONDS) == "SETUP_OPEN 20"
    ensures RoundStartLine(1, ROUND_SECONDS) == "ROUND_START 1 5"
  {
    assert Digits(60) == Digits(6) + [Digit(0)];
    assert Digits(20) == Digits(2) + [Digit(0)];
  }

  lemma GreetedClient(id: int)
    ensures Told(NewPlayer(id), "INFO connected_send_HELLO_name") ==
            EMPTY_SLOT.(id := id, connected := true, outbuf := "INFO connected_send_HELLO_name\n")
  {
    var p, line := NewPlayer(id), "INFO connected_send_HELLO_name";
    assert p.outbuf == "" && |line| == 30;
    assert p.outbuf + Frame(line) == "INFO connected_send_HELLO_name\n";
    assert Told(p, line) == p.(outbuf := "INFO connected_send_HELLO_name\n");
    hide Told;
  }

  /** A new client takes the first free slot and the next id, with nothing known about it, and is greeted. */
  lemma AcceptedClient(s: Server)
    ensures var i, r := FreeSlot(s.players), Accepted(s);
            if i == MAX_PLAYERS then r == s else
              r == s.(nextId := s.nextId + 1,
                      players := s.players[i := EMPTY_SLOT.(id := s.nextId, connected := true, outbuf := "INFO connected_send_HELLO_name\n")])
  {
    GreetedClient(s.nextId);
    hide Told, FreeSlot, NewPlayer;
  }

  /** A candidate that comes too late is told so, and nothing else happens; or it is given up when it has
      no room for that, and nobody else is touched by it. */
  lemma LateCandidate(s: Server, i: Slot, now: nat)
    requires Inv(s) && IsCandidate(s.players[i])
    requires s.phase != LobbyOpen || (s.joinDeadline != 0 && now >= s.joinDeadline)
    ensures var p, r := s.players[i], MaybeAdmit(s, i, now);
            if |p.outbuf| + 19 <= OUTBUF_SIZE then
              r == s.(players := s.players[i := p.(outbuf := p.outbuf + "ERROR lobby_closed\n")])
            else
              r == Reevaluate(s.(players := s.players[i := EMPTY_SLOT]), now) && Kept(s, r)
  {
    var p := s.players[i];
    Results.GivenUpKeeps(s, i, now);
    assert |"ERROR lobby_closed"| == 18;
    assert p.outbuf + Frame("ERROR lobby_closed") == p.outbuf + "ERROR lobby_closed\n";
    hide Reevaluate, Sound, Kept;
  }
}
