/** What the server's transition engine does to its state (src/server_state.c), as functions.

    A line that does not fit a player's output buffer drops the player, which may end or start a
    round and so send more lines. The recursion is well founded: re-evaluation is entered only
    after the set of connected slots has shrunk. `now` is the clock during one event. */
module ServerState {
  import opened Common
  import opened Text
  import opened Protocol
  import opened Game

  function Connected(ps: seq<Player>): set<int> {
    set k | 0 <= k < |ps| && ps[k].connected
  }

  // ---------------------------------------------------------------- lines and slots

  /** A slot after a line was queued for it, the connection being given up when it does not fit. */
  function Delivered(p: Player, line: string): Player {
    match Enqueued(p.outbuf, line)
    case None => EMPTY_SLOT
    case Some(outbuf) => p.(outbuf := outbuf)
  }

  /** A slot after a line was queued for it by a caller that ignores failure. */
  function Told(p: Player, line: string): Player {
    match Enqueued(p.outbuf, line)
    case None => p
    case Some(outbuf) => p.(outbuf := outbuf)
  }

  /** A slot after several lines were queued for it, the first failure giving it up. */
  function DeliveredAll(p: Player, lines: seq<string>): Player {
    match EnqueuedAll(p.outbuf, lines)
    case None => EMPTY_SLOT
    case Some(outbuf) => p.(outbuf := outbuf)
  }

  function WithPlayer(s: Server, i: Slot, p: Player): Server
  {
    s.(players := s.players[i := p])
  }

  /** Each slot after one and the same function was applied to the connected ones. */
  function MapConnected(ps: Table, f: Player -> Player): Table {
    seq(MAX_PLAYERS, k requires 0 <= k < MAX_PLAYERS => if ps[k].connected then f(ps[k]) else ps[k])
  }

  /** `drop_player` without an announcement. */
  function Cleared(s: Server, i: Slot): Server
  {
    if s.players[i].connected then WithPlayer(s, i, EMPTY_SLOT) else s
  }

  function GameOverLines(p: Player): seq<string> {
    if !p.connected || !p.registered then []
    else if IsWinner(p) then ["GAME_OVER WIN"]
    else if IsAdmitted(p) then ["GAME_OVER LOSE"]
    else ["GAME_OVER"]
  }

  function EndGame(s: Server): Server {
    s.(phase := GameOver, players := MapConnected(s.players, p => DeliveredAll(p, GameOverLines(p))))
  }

  // ---------------------------------------------------------------- snapshots

  function HeaderLines(s: Server, dst: Player, now: nat): seq<string> {
    match s.phase
    case LobbyOpen =>
      if s.joinDeadline == 0 then ["LOBBY_WAITING"] else [LobbyOpenLine(SecondsLeft(s.joinDeadline, now))]
    case Setup => ["LOBBY_CLOSED", SetupOpenLine(SecondsLeft(s.setupDeadline, now))]
    case RoundActive => ["LOBBY_CLOSED", RoundStartLine(s.roundNo, SecondsLeft(s.roundDeadline, now))]
    case Repick => ["LOBBY_CLOSED", "REPICK_START"]
    case GameOver => GameOverLines(dst)
  }

  /** One line for each admitted player, in slot order. */
  function PlayerLines(ps: seq<Player>): seq<string> {
    if ps == [] then [] else
      PlayerLines(ps[..|ps| - 1]) + if IsAdmitted(ps[|ps| - 1]) then [PlayerLine(ps[|ps| - 1])] else []
  }

  function SnapshotLines(s: Server, dst: Player, now: nat): seq<string> {
    ["STATE_BEGIN"] + (HeaderLines(s, dst, now) + (PlayerLines(s.players) + ["STATE_END"]))
  }

  /** The state after the slots below `n` got their snapshots. Each one shows the state left by
      the drops before it. */
  function SnapshotsUpTo(s: Server, n: nat, now: nat): Server
    requires n <= MAX_PLAYERS
  {
    if n == 0 then s else
      var m := SnapshotsUpTo(s, n - 1, now);
      var p := m.players[n - 1];
      if IsRegistered(p) then WithPlayer(m, n - 1, DeliveredAll(p, SnapshotLines(m, p, now))) else m
  }

  // ---------------------------------------------------------------- the recursion

  function Broadcast(s: Server, line: string, now: nat): (r: Server)
    ensures Connected(r.players) <= Connected(s.players)
    decreases Connected(s.players), 1, 0
  {
    var s' := s.(players := MapConnected(s.players, p => Delivered(p, line)));
    assert Connected(s'.players) <= Connected(s.players);
    if Connected(s'.players) == Connected(s.players) then s' else Reevaluate(s', now)
  }

  /** The state after the admitted players in slots below `n` had their position broadcast. */
  function PositionsUpTo(s: Server, n: nat, now: nat): (r: Server)
    requires n <= MAX_PLAYERS
    ensures Connected(r.players) <= Connected(s.players)
    decreases Connected(s.players), 2, n
  {
    if n == 0 then s else
      var m := PositionsUpTo(s, n - 1, now);
      if IsAdmitted(m.players[n - 1]) then Broadcast(m, PlayerLine(m.players[n - 1]), now) else m
  }

  function BroadcastPositions(s: Server, now: nat): (r: Server)
    ensures Connected(r.players) <= Connected(s.players)
    decreases Connected(s.players), 3, 0
  {
    PositionsUpTo(s, MAX_PLAYERS, now)
  }

  function StartActiveRound(s: Server, now: nat): (r: Server)
    ensures Connected(r.players) <= Connected(s.players)
    decreases Connected(s.players), 4, 0
  {
    var s1 := StartRound(s, now);
    assert Connected(s1.players) == Connected(s.players);
    BroadcastPositions(Broadcast(s1, RoundStartLine(s1.roundNo, ROUND_SECONDS), now), now)
  }

  function RepickedPlayer(p: Player): Player {
    if IsAlive(p) then p.(choice := p.repickChoice, repickSubmitted := false, repickChoice := '\0') else p
  }

  function FinishRepicks(s: Server, now: nat): (r: Server)
    ensures Connected(r.players) <= Connected(s.players)
    decreases Connected(s.players), 5, 0
  {
    var s1 := s.(players := MapConnected(s.players, RepickedPlayer));
    assert Connected(s1.players) == Connected(s.players);
    StartActiveRound(BroadcastPositions(Broadcast(s1, "REPICK_DONE", now), now), now)
  }

  function Reevaluate(s: Server, now: nat): (r: Server)
    ensures Connected(r.players) <= Connected(s.players)
    decreases Connected(s.players), 6, 0
  {
    match s.phase
    case LobbyOpen => if AdmittedCount(s.players) == 0 then s.(joinDeadline := 0) else s
    case Setup =>
      if AdmittedCount(s.players) < 2 then EndGame(s)
      else if AllAdmittedReady(s.players) then StartActiveRound(s, now)
      else s
    case Repick =>
      if AliveCount(s.players) <= 1 then EndGame(s)
      else if AllAliveRepicked(s.players) then FinishRepicks(s, now)
      else s
    case RoundActive =>
      if AliveCount(s.players) <= 1 || TypesAlive(s.players) <= 1 then EndGame(s) else s
    case GameOver => s
  }

  // ---------------------------------------------------------------- operations built on it

  function BroadcastGameState(s: Server, now: nat): Server {
    var r := SnapshotsUpTo(s, MAX_PLAYERS, now);
    if Connected(r.players) == Connected(s.players) then r else Reevaluate(r, now)
  }

  function LeftLine(name: string): string { "LEFT " + name }

  function Dropped(s: Server, i: Slot, announce: bool, now: nat): Server
  {
    var p := s.players[i];
    var s1 := Cleared(s, i);
    if p.connected && announce && p.registered then
      BroadcastGameState(Broadcast(s1, LeftLine(p.name), now), now)
    else
      s1
  }

  /** Too late to join: say so, or give the connection up. */
  function Refused(s: Server, i: Slot, now: nat): Server
  {
    match Enqueued(s.players[i].outbuf, "ERROR lobby_closed")
    case Some(outbuf) => WithPlayer(s, i, s.players[i].(outbuf := outbuf))
    case None => Reevaluate(Cleared(s, i), now)
  }

  function JoinedLine(name: string): string { "JOINED " + name }

  /** The admission proper, after the lobby timer has been dealt with. The slot may have been
      cleared by the broadcast in between; it is marked all the same. */
  function Admitted(s: Server, i: Slot, now: nat): Server
  {
    var p := s.players[i].(admitted := true, waiting := true);
    match Enqueued(p.outbuf, "JOINED_MATCH")
    case None => Reevaluate(Cleared(WithPlayer(s, i, p), i), now)
    case Some(outbuf) =>
      BroadcastGameState(Broadcast(WithPlayer(s, i, p.(outbuf := outbuf)), JoinedLine(p.name), now), now)
  }

  function MaybeAdmit(s: Server, i: Slot, now: nat): Server
  {
    var p := s.players[i];
    if !p.connected || !p.registered || p.admitted || !p.choiceChosen || !p.spawnChosen then
      s
    else if s.phase != LobbyOpen then
      Refused(s, i, now)
    else if s.joinDeadline == 0 then
      Admitted(Broadcast(s.(joinDeadline := now + JOIN_WINDOW_SECONDS), LobbyOpenLine(JOIN_WINDOW_SECONDS), now), i, now)
    else if now >= s.joinDeadline then
      Refused(s, i, now)
    else
      Admitted(s, i, now)
  }

  /** A player without any progress in a match. */
  function FreshProgress(p: Player): Player {
    p.(admitted := false, alive := false, waiting := false, inRound := false,
       choiceChosen := false, spawnChosen := false, repickSubmitted := false, repickChoice := '\0',
       choice := '\0', x := -1.0, y := -1.0)
  }

  const RESET_LINES := ["MATCH_RESET", "SPECTATING", "CHOOSE_TYPE", "CHOOSE_SPAWN 10 10", "LOBBY_WAITING"]

  function ResetPlayer(p: Player): Player {
    if p.registered then DeliveredAll(FreshProgress(p), RESET_LINES) else p
  }

  function ResetMatch(s: Server): Server {
    s.(phase := LobbyOpen, joinDeadline := 0, setupDeadline := 0, roundDeadline := 0, roundNo := 0,
       players := MapConnected(s.players, ResetPlayer))
  }

  function CloseLobby(s: Server, now: nat): Server {
    if s.phase != LobbyOpen || s.joinDeadline == 0 || now < s.joinDeadline then
      s
    else
      var s1 := Broadcast(s.(phase := Setup, setupDeadline := now + SETUP_SECONDS), "LOBBY_CLOSED", now);
      var s2 := Broadcast(s1, SetupOpenLine(SETUP_SECONDS), now);
      if AdmittedCount(s2.players) < 2 then EndGame(s2)
      else if AllAdmittedReady(s2.players) then StartActiveRound(s2, now)
      else Broadcast(s2, "WAITING_FOR_OTHERS", now)
  }

  /** The state after the unready admitted players in slots below `n` were dropped. */
  function UnreadyDroppedUpTo(s: Server, n: nat, now: nat): Server
    requires n <= MAX_PLAYERS
  {
    if n == 0 then s else
      var m := UnreadyDroppedUpTo(s, n - 1, now);
      if IsAdmitted(m.players[n - 1]) && !IsReady(m.players[n - 1]) then Dropped(m, n - 1, true, now) else m
  }

  function ExpireUnready(s: Server, now: nat): Server {
    if s.phase != Setup || s.setupDeadline == 0 || now < s.setupDeadline then
      s
    else
      var s1 := UnreadyDroppedUpTo(s, MAX_PLAYERS, now);
      if AdmittedCount(s1.players) < 2 then EndGame(s1)
      else if AllAdmittedReady(s1.players) then StartActiveRound(s1, now)
      else s1
  }
}
