/** Events of the server loop (src/server.c) and runs of them, from an empty server. */
module ServerRuns {
  import opened Common
  import opened Protocol
  import opened Game
  import opened Chase
  import opened ServerState
  import opened ServerCommands

  const CHASE_TICK_SECONDS := 0.016667

  /** One thing that happens to the loop. `now` is the wall clock in seconds, `clock` the
      sub-second one of the chase. */
  datatype Event =
    | Accept
    | ReadFailure(slot: Slot, now: nat)
    | Line(slot: Slot, command: Command, now: nat)
    | Write(slot: Slot, sends: seq<SendResult>, now: nat)
    | Timer(now: nat, clock: real)

  datatype World = World(server: Server, lastChaseTick: real)

  /** `init_server_state` */
  function EmptyServer(): Server {
    Server(seq(MAX_PLAYERS, _ => UNUSED_SLOT), 1, 0, LobbyOpen, 0, 0, 0)
  }

  /** A read or write failure, like QUIT, announces the departure and re-evaluates. */
  function Lost(s: Server, i: Slot, now: nat): Server
  {
    Reevaluate(Dropped(s, i, true, now), now)
  }

  function Flushing(s: Server, i: Slot, sends: seq<SendResult>, now: nat): Server
  {
    var p := s.players[i];
    var (sent, outcome) := FlushCount(|p.outbuf|, sends);
    var s1 := WithPlayer(s, i, p.(outbuf := p.outbuf[sent..]));
    if outcome == Broken then Lost(s1, i, now) else s1
  }

  /** One tick of the chase, the positions after it, and the end of the match it may bring. */
  function Chasing(s: Server, now: nat, root: real -> real): Server {
    var ps := Tick(s.players, CHASE_TICK_SECONDS, root);
    var s1 := BroadcastPositions(s.(players := ps), now);
    if TypesAlive(ps) <= 1 then Reevaluate(s1, now) else s1
  }

  function AfterDeadlines(s: Server, now: nat): Server {
    ExpireUnready(CloseLobby(s, now), now)
  }

  predicate TickDue(w: World, now: nat, clock: real) {
    AfterDeadlines(w.server, now).phase == RoundActive && clock - w.lastChaseTick >= CHASE_TICK_SECONDS
  }

  function AdvanceTimers(w: World, now: nat, clock: real, root: real -> real): World {
    var s := AfterDeadlines(w.server, now);
    if TickDue(w, now, clock) then World(Chasing(s, now, root), clock) else w.(server := s)
  }

  function Step(w: World, e: Event, root: real -> real): World
  {
    var s := w.server;
    match e
    case Accept => w.(server := Accepted(s))
    case ReadFailure(i, now) => if s.players[i].connected then w.(server := Lost(s, i, now)) else w
    case Line(i, command, now) => if s.players[i].connected then w.(server := HandleCommand(s, i, command, now)) else w
    case Write(i, sends, now) => if s.players[i].connected then w.(server := Flushing(s, i, sends, now)) else w
    case Timer(now, clock) => AdvanceTimers(w, now, clock, root)
  }

  /** The world after a sequence of events. */
  function Run(w: World, events: seq<Event>, root: real -> real): World
    decreases |events|
  {
    if events == [] then w else Step(Run(w, events[..|events| - 1], root), events[|events| - 1], root)
  }

  function StartOfServer(clock: real): World { World(EmptyServer(), clock) }
}
