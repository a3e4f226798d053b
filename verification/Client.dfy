/** The client's table of players and the server lines that change it
    (src/client_text_messages.c). The other fields of the client state are not modelled. */
module Client {
  import opened Common
  import opened Text

  datatype ClientPlayer = ClientPlayer(
    used: bool, name: string, choice: char, x: real, y: real, alive: int, waiting: int)

  /** A slot after `memset`. */
  const NO_PLAYER := ClientPlayer(false, "", '\0', 0.0, 0.0, 0, 0)

  type ClientTable = ps: seq<ClientPlayer> | |ps| == MAX_PLAYERS witness seq(MAX_PLAYERS, _ => NO_PLAYER)

  function ClearedTable(): ClientTable { seq(MAX_PLAYERS, _ => NO_PLAYER) }

  /** Index of the first slot in use under `name`, or the length of the table. */
  function FindPlayer(ps: seq<ClientPlayer>, name: string): (r: nat)
    ensures r <= |ps|
    ensures r < |ps| ==> ps[r].used && ps[r].name == name
    ensures forall k :: 0 <= k < r ==> !(ps[k].used && ps[k].name == name)
  {
    if ps == [] || (ps[0].used && ps[0].name == name) then 0 else
      var r := FindPlayer(ps[1..], name);
      assert forall k :: 0 < k < r + 1 ==> ps[k] == ps[1..][k - 1];
      r + 1
  }

  function FirstUnused(ps: seq<ClientPlayer>): (r: nat)
    ensures r <= |ps|
    ensures r < |ps| ==> !ps[r].used
    ensures forall k :: 0 <= k < r ==> ps[k].used
  {
    if ps == [] || !ps[0].used then 0 else
      var r := FirstUnused(ps[1..]);
      assert forall k :: 0 < k < r + 1 ==> ps[k] == ps[1..][k - 1];
      r + 1
  }

  /** The slot that a report about `name` goes to: its own, else the first free one, else none. */
  function SlotFor(ps: ClientTable, name: string): (r: nat)
    ensures r <= MAX_PLAYERS
  {
    if FindPlayer(ps, name) < MAX_PLAYERS then FindPlayer(ps, name) else FirstUnused(ps)
  }

  function Reported(ps: ClientTable, report: PlayerReport): ClientTable {
    var i := SlotFor(ps, report.name);
    if i == MAX_PLAYERS then ps else
      ps[i := ClientPlayer(true, report.name, report.choice, report.x, report.y, report.alive, report.waiting)]
  }

  /** The winner of a pair stands where the line says; the loser is off the board. */
  function Paired(ps: ClientTable, report: PairReport): ClientTable {
    var loser := if report.winner == report.name1 then report.name2 else report.name1;
    var w, l := FindPlayer(ps, report.winner), FindPlayer(ps, loser);
    var ps1 := if w == MAX_PLAYERS then ps else ps[w := ps[w].(x := report.x, y := report.y, alive := 1, waiting := 0)];
    if l == MAX_PLAYERS then ps1 else ps1[l := ps1[l].(alive := 0, waiting := 0, x := -1.0, y := -1.0)]
  }

  /** `parse_state_snapshot_line` */
  function SnapshotLineHandled(ps: ClientTable, line: string): ClientTable {
    if line == "STATE_BEGIN" then ClearedTable()
    else if line == "STATE_END" then ps
    else
      match ScanPlayer(line)
      case Some(report) => Reported(ps, report)
      case None =>
        match ScanPair(line)
        case Some(report) => if StartsWith(line, "PAIR ") then Paired(ps, report) else ps
        case None => ps
  }

  /** `sscanf(line, "LEFT %31s", ...)` */
  function ScanLeft(line: string): Option<string> {
    if !StartsWith(line, "LEFT") then None else
      match ScanToken(line[4..])
      case Some((name, _)) => Some(name)
      case None => None
  }

  /** `parse_general_line` */
  function GeneralLineHandled(ps: ClientTable, line: string): ClientTable {
    if line == "MATCH_RESET" then ClearedTable()
    else
      match ScanLeft(line)
      case Some(name) =>
        var i := FindPlayer(ps, name);
        if i == MAX_PLAYERS then ps else ps[i := ps[i].(used := false)]
      case None => ps
  }

  datatype Parser = General | Snapshot
  datatype Entry = Entry(token: string, exact: bool, parser: Parser)

  const DISPATCH := [
    Entry("WELCOME ", false, General), Entry("MATCH_RESET", true, General), Entry("SPECTATING", true, General),
    Entry("LOBBY_WAITING", true, General), Entry("LOBBY_OPEN ", false, General), Entry("LOBBY_CLOSED", true, General),
    Entry("SETUP_OPEN ", false, General), Entry("CHOOSE_TYPE", true, General), Entry("CHOOSE_SPAWN", false, General),
    Entry("CHOICE_OK ", false, General), Entry("SPAWN_OK ", false, General), Entry("JOINED_MATCH", true, General),
    Entry("WAITING_FOR_OTHERS", false, General), Entry("JOINED ", false, General), Entry("LEFT ", false, General),
    Entry("ERROR ", false, General),
    Entry("STATE_BEGIN", true, Snapshot), Entry("STATE_END", true, Snapshot), Entry("PLAYER ", false, Snapshot),
    Entry("ROUND_START ", false, Snapshot), Entry("REPICK_START", true, Snapshot), Entry("REPICK_DONE", true, Snapshot),
    Entry("PAIR ", false, Snapshot), Entry("BYE ", false, Snapshot), Entry("GAME_OVER ", false, Snapshot)]

  predicate LineMatches(entry: Entry, line: string) {
    if entry.exact then line == entry.token else StartsWith(line, entry.token)
  }

  /** The parser of the first entry that matches. */
  function ParserFor(entries: seq<Entry>, line: string): Option<Parser> {
    if entries == [] then None
    else if LineMatches(entries[0], line) then Some(entries[0].parser)
    else ParserFor(entries[1..], line)
  }

  /** What one server line does to the table. */
  function LineHandled(ps: ClientTable, line: string): ClientTable {
    match ParserFor(DISPATCH, line)
    case None => ps
    case Some(General) => GeneralLineHandled(ps, line)
    case Some(Snapshot) => SnapshotLineHandled(ps, line)
  }

  function LinesHandled(ps: ClientTable, lines: seq<string>): ClientTable
    decreases |lines|
  {
    if lines == [] then ps else LineHandled(LinesHandled(ps, lines[..|lines| - 1]), lines[|lines| - 1])
  }

  // ---------------------------------------------------------------- the same, in place

  class ClientState {
    const players: array<ClientPlayer>

    ghost predicate Valid() { players.Length == MAX_PLAYERS }

    ghost function Table(): ClientTable
      requires Valid()
      reads players
    {
      players[..]
    }

    constructor ()
      ensures Valid() && fresh(players) && Table() == ClearedTable()
    {
      players := new ClientPlayer[MAX_PLAYERS](_ => NO_PLAYER);
    }

    method Find(name: string) returns (r: nat)
      requires Valid()
      ensures r == FindPlayer(Table(), name)
    {
      r := 0;
      while r < MAX_PLAYERS && !(players[r].used && players[r].name == name)
        invariant r <= MAX_PLAYERS
        invariant forall k :: 0 <= k < r ==> !(players[k].used && players[k].name == name)
      {
        r := r + 1;
      }
    }

    method ClearPlayers()
      requires Valid()
      modifies players
      ensures Table() == ClearedTable()
    {
      forall k | 0 <= k < MAX_PLAYERS {
        players[k] := NO_PLAYER;
      }
    }

    /** The slot for `name`, taken and initialised if it was free; MAX_PLAYERS when there is none. */
    method GetOrAddPlayer(name: string) returns (i: nat)
      requires Valid()
      modifies players
      ensures i == SlotFor(old(Table()), name)
      ensures if FindPlayer(old(Table()), name) < MAX_PLAYERS || i == MAX_PLAYERS then Table() == old(Table())
              else Table() == old(Table())[i := ClientPlayer(true, name, '?', -1.0, -1.0, 0, 0)]
    {
      i := Find(name);
      if i < MAX_PLAYERS {
        return;
      }
      i := 0;
      while i < MAX_PLAYERS && players[i].used
        invariant i <= MAX_PLAYERS
        invariant forall k :: 0 <= k < i ==> players[k].used
      {
        i := i + 1;
      }
      if i < MAX_PLAYERS {
        players[i] := ClientPlayer(true, name, '?', -1.0, -1.0, 0, 0);
      }
    }

    method ParsePairLine(line: string)
      requires Valid()
      modifies players
      ensures Table() == if StartsWith(line, "PAIR ") && ScanPair(line).Some? then Paired(old(Table()), ScanPair(line).value)
                         else old(Table())
    {
      if !StartsWith(line, "PAIR ") || ScanPair(line).None? {
        return;
      }
      var report := ScanPair(line).value;
      var w := Find(report.winner);
      var l := Find(if report.winner == report.name1 then report.name2 else report.name1);
      if w < MAX_PLAYERS {
        players[w] := players[w].(x := report.x, y := report.y, alive := 1, waiting := 0);
      }
      if l < MAX_PLAYERS {
        players[l] := players[l].(alive := 0, waiting := 0, x := -1.0, y := -1.0);
      }
    }

    method ParseStateSnapshotLine(line: string)
      requires Valid()
      modifies players
      ensures Table() == SnapshotLineHandled(old(Table()), line)
    {
      if line == "STATE_BEGIN" {
        ClearPlayers();
        return;
      }
      if line == "STATE_END" {
        return;
      }
      match ScanPlayer(line) {
        case None => ParsePairLine(line);
        case Some(report) =>
          var i := GetOrAddPlayer(report.name);
          if i < MAX_PLAYERS {
            players[i] := players[i].(choice := report.choice, x := report.x, y := report.y,
                                      alive := report.alive, waiting := report.waiting);
          }
      }
    }

    method ParseGeneralLine(line: string)
      requires Valid()
      modifies players
      ensures Table() == GeneralLineHandled(old(Table()), line)
    {
      if line == "MATCH_RESET" {
        ClearPlayers();
        return;
      }
      match ScanLeft(line) {
        case None => return;
        case Some(name) =>
          var i := Find(name);
          if i < MAX_PLAYERS {
            players[i] := players[i].(used := false);
          }
      }
    }

    method HandleServerLine(line: string)
      requires Valid()
      modifies players
      ensures Table() == LineHandled(old(Table()), line)
    {
      var rest := DISPATCH;
      while rest != []
        invariant ParserFor(DISPATCH, line) == ParserFor(rest, line)
        invariant Table() == old(Table())
        decreases |rest|
      {
        if LineMatches(rest[0], line) {
          match rest[0].parser {
            case General => ParseGeneralLine(line);
            case Snapshot => ParseStateSnapshotLine(line);
          }
          return;
        }
        rest := rest[1..];
      }
    }
  }
}
