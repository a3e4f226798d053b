/** One client command (src/server_commands.c), as functions on the server's state.

    A command arrives with its word recognised and its arguments scanned: None where the
    arguments are missing or, for HELLO and SPAWN, where `sscanf` does not find them. */
module ServerCommands {
  import opened Common
  import opened Text
  import opened Protocol
  import opened Game
  import opened ServerState

  datatype Command =
    | Unknown
    | Hello(name: Option<Name>)
    | Choose(choice: Option<string>)
    | Spawn(at: Option<(real, real)>)
    | PickAgain(choice: Option<string>)
    | GetState
    | Rematch
    | Quit

  /** The text names the type: its letter, of either case. */
  predicate NamesType(arg: string, c: char) {
    match c
    case 'R' => arg == "R" || arg == "r"
    case 'P' => arg == "P" || arg == "p"
    case 'S' => arg == "S" || arg == "s"
    case _ => false
  }

  /** One letter, of either case, naming a type. */
  function ParseChoice(arg: Option<string>): (r: Option<char>)
    ensures r.Some? ==> IsRps(r.value)
    ensures forall c :: r == Some(c) <==> arg.Some? && NamesType(arg.value, c)
    ensures r.Some? <==> arg.Some? && |arg.value| == 1 && arg.value[0] in "RPSrps"
  {
    if arg.None? || |arg.value| != 1 then None else
      var c := arg.value[0];
      var upper := if 'a' <= c <= 'z' then c - 'a' + 'A' else c;
      if IsRps(upper) then Some(upper) else None
  }

  predicate NameTaken(ps: seq<Player>, name: string) {
    exists k :: 0 <= k < |ps| && IsRegistered(ps[k]) && ps[k].name == name
  }

  /** An admitted player other than `ignore` stands exactly on the tile's corner. */
  predicate SpawnTaken(ps: seq<Player>, x: int, y: int, ignore: int) {
    exists k :: 0 <= k < |ps| && k != ignore && IsAdmitted(ps[k]) && ps[k].spawnChosen
                && ps[k].x == x as real && ps[k].y == y as real
  }

  function ToldAll(p: Player, lines: seq<string>): Player
    decreases |lines|
  {
    if lines == [] then p else ToldAll(Told(p, lines[0]), lines[1..])
  }

  function Tell(s: Server, i: Slot, line: string): Server
  {
    WithPlayer(s, i, Told(s.players[i], line))
  }

  function LobbyStatusLines(s: Server, now: nat): seq<string> {
    if s.phase == LobbyOpen then
      ["CHOOSE_TYPE", "CHOOSE_SPAWN 10 10",
       if s.joinDeadline == 0 then "LOBBY_WAITING" else LobbyOpenLine(SecondsLeft(s.joinDeadline, now))]
    else
      ["LOBBY_CLOSED"]
  }

  function WelcomeLine(id: int): string { "WELCOME " + Decimal(id) }

  function HandleHello(s: Server, i: Slot, name: Option<Name>, now: nat): Server
  {
    var p := s.players[i];
    if p.registered then Tell(s, i, "ERROR already_registered")
    else if name.None? then Tell(s, i, "ERROR usage_HELLO_name")
    else if NameTaken(s.players, name.value) then Tell(s, i, "ERROR duplicate_name")
    else
      var q := FreshProgress(p.(name := name.value, registered := true));
      WithPlayer(s, i, ToldAll(q, [WelcomeLine(p.id), "SPECTATING"] + LobbyStatusLines(s, now)))
  }

  function ChoiceOkLine(c: char): string { "CHOICE_OK " + [c] }

  function HandleChoose(s: Server, i: Slot, arg: Option<string>, now: nat): Server
  {
    var p := s.players[i];
    if !p.registered then Tell(s, i, "ERROR register_first")
    else if p.admitted then Tell(s, i, "ERROR already_joined")
    else
      match ParseChoice(arg)
      case None => Tell(s, i, "ERROR bad_choice")
      case Some(c) =>
        MaybeAdmit(WithPlayer(s, i, Told(p.(choice := c, choiceChosen := true), ChoiceOkLine(c))), i, now)
  }

  function SpawnOkLine(x: real, y: real): string { "SPAWN_OK " + (Fixed1(x) + (" " + Fixed1(y))) }

  function HandleSpawn(s: Server, i: Slot, at: Option<(real, real)>, now: nat): Server
  {
    var p := s.players[i];
    if !p.registered then Tell(s, i, "ERROR register_first")
    else if p.admitted then Tell(s, i, "ERROR already_joined")
    else
      match at
      case None => Tell(s, i, "ERROR usage_SPAWN_x_y")
      case Some((x, y)) =>
        if !InBox(x, y) then Tell(s, i, "ERROR bad_spawn")
        else if SpawnTaken(s.players, x.Floor, y.Floor, i) then Tell(s, i, "ERROR spawn_taken")
        else MaybeAdmit(WithPlayer(s, i, Told(p.(x := x, y := y, spawnChosen := true), SpawnOkLine(x, y))), i, now)
  }

  function RepickOkLine(c: char): string { "REPICK_OK " + [c] }

  function HandlePickAgain(s: Server, i: Slot, arg: Option<string>, now: nat): Server
  {
    var p := s.players[i];
    if s.phase != Repick then Tell(s, i, "ERROR not_in_repick_phase")
    else if !p.registered || !p.admitted || !p.alive then Tell(s, i, "ERROR not_alive")
    else if p.repickSubmitted then Tell(s, i, "ERROR already_repicked")
    else
      match ParseChoice(arg)
      case None => Tell(s, i, "ERROR bad_choice")
      case Some(c) =>
        var s1 := WithPlayer(s, i, Told(p.(repickChoice := c, repickSubmitted := true), RepickOkLine(c)));
        if AllAliveRepicked(s1.players) then FinishRepicks(s1, now) else Tell(s1, i, "REPICK_WAITING")
  }

  function HandleGetState(s: Server, i: Slot, now: nat): Server
  {
    match EnqueuedAll(s.players[i].outbuf, SnapshotLines(s, s.players[i], now))
    case Some(outbuf) => WithPlayer(s, i, s.players[i].(outbuf := outbuf))
    case None => Reevaluate(Cleared(s, i), now)
  }

  function HandleCommand(s: Server, i: Slot, c: Command, now: nat): Server
  {
    match c
    case Unknown => Tell(s, i, "ERROR bad_command")
    case Hello(name) => HandleHello(s, i, name, now)
    case Choose(arg) => HandleChoose(s, i, arg, now)
    case Spawn(at) => HandleSpawn(s, i, at, now)
    case PickAgain(arg) => HandlePickAgain(s, i, arg, now)
    case GetState => HandleGetState(s, i, now)
    case Rematch =>
      if s.phase != GameOver then Tell(s, i, "ERROR rematch_not_available") else ResetMatch(s)
    case Quit => Reevaluate(Dropped(s, i, true, now), now)
  }

  // ---------------------------------------------------------------- accepting a client

  /** The first free slot, or MAX_PLAYERS when the server is full. */
  function FreeSlot(ps: seq<Player>): (r: nat)
    ensures r <= |ps|
    ensures r < |ps| ==> !ps[r].connected
    ensures forall k :: 0 <= k < r ==> ps[k].connected
  {
    if ps == [] || !ps[0].connected then 0 else
      var r := FreeSlot(ps[1..]);
      assert forall k :: 0 < k < r + 1 ==> ps[k] == ps[1..][k - 1];
      r + 1
  }

  function NewPlayer(id: int): Player { EMPTY_SLOT.(id := id, connected := true) }

  /** A new connection takes the first free slot and the next id, and is greeted. */
  function Accepted(s: Server): Server {
    var i := FreeSlot(s.players);
    if i == MAX_PLAYERS then s else
      WithPlayer(s, i, Told(NewPlayer(s.nextId), "INFO connected_send_HELLO_name")).(nextId := s.nextId + 1)
  }
}
