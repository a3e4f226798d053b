# Rock Paper Scissors Battle Royale: a verified model

One server process runs a match for up to 32 players. It keeps a fixed table of player slots, admits
players through a lobby, lets them chase each other on a 10 by 10 board, and tells every client what
happens by queuing lines of text in bounded output buffers. A line that does not fit drops its player,
and a drop can end or start a round, which sends more lines. This project models the server, the chase,
the pairing and elimination of the older round mode, the framing of lines over a byte stream, and the
table that a client builds from those lines. Dafny proves what follows for all inputs and all runs.

## How the model is built

* `Common`, `Text`: records, constants, and the exact text of the lines, printed and scanned.
* `Protocol`, `Transport`: the two fixed buffers of a connection, in place, and one direction of a
  connection from queued lines to popped lines.
* `Game`, `Pairing`, `Elimination`, `EliminationRounds`: counters over the table, greedy nearest pairing, and
  elimination rounds: the fights alone, and whole rounds with all that they send.
* `Chase`, `ChaseGeometry`, `ChaseEndgame`: the chase in place, its geometry, and its two-type endgame.
  `root` stands for `sqrtf`. The invariants of the server hold whatever it computes; the geometric
  results assume that it is the square root on the non-negative reals (`IsRoot`).
* `ServerState`, `ServerCommands`, `ServerRuns`: what each server operation, command and loop event does
  to the state, as functions. The mutual recursion of broadcasts, drops, re-evaluation and round starts is
  justified by one measure: the set of connected slots, then the rank of the function.
* `ServerInvariant`, `RunInvariant`, `MatchRuns`, `Admissions`, `Joining`, `Rematch`: what nested operations
  keep, and the results about runs. `Inv` is the invariant of an event boundary.
* `LobbyTimer`, `RunClock`, `EndgameRuns`: more about runs: exactly which events lose the lobby timer, and a
  run that does; deadlines and snapshot sizes on a 64-bit clock; the two-type endgame on the running server.
* `Mail`: the lines that an operation sends to each slot, fixed before it starts; it loses nobody exactly when
  every buffer takes them, and then changes nothing else (`Sends`, composed by `SendsThen`).
* `News`, `Results`, `Replies`, `Announcements`: the lines that an operation has queued for a slot; who is told what
  when a match ends; what each command is answered; and what a join, a departure, a tick and a rematch send to whom.
* `DroppedRounds`, `Repicks`: two elimination rounds in which a fighter is dropped; and the repick phase that an
  elimination round can enter, with an invariant of its own (`Repicking`).
* `Sending`, `Delivery`: every line that a run queues is one that the framing carries; one connection of a run,
  from its accept on, with the client at its other end.
* `MatchServer`: the server as a class over an array of 32 slots, with the loops and the re-entrant calls
  of the source; every method is proved to do what its function says, so the results about the functions
  are results about it. `Serve` handles any sequence of events and ends in a state of `Run` that satisfies `Inv`.
* `SnapshotText`, `Client`, `SnapshotRoundTrip`, `PairRoundTrip`, `ClientNames`: the size of snapshots, the
  client's table in place, the agreement of the server's printing with the client's parsing, and the names in the table.

A `char` stands for one byte. `now` is the value of the clock during one event. The events are: a client is
accepted, a read fails, a command line is handled, output is flushed as far as the socket takes it, and the timers advance.

## Results that differ from what one would expect

* The lobby timer is not always exact. `LobbyTimer.TimerCanBeLost` is a run of a fresh server in which the
  announcement of the timer drops a second client with a full buffer, the re-evaluation that follows stops the
  timer, and the first player is then admitted into a lobby that has no timer. `LobbyTimer.EventTimerExactIff`
  says exactly which events do this, by what can be seen before them.
* A candidate that the announcement of the timer drops is admitted and announced all the same: everybody else is
  sent "JOINED " without a name (`Announcements.NamelessAdmission`).
* Two players can ask for the same point. SPAWN compares the exact coordinates of others with the truncated ones
  asked for; `Replies.SpawnIsChecked` says exactly when it refuses, and `Replies.WholeSpawnIsFree` that whole
  coordinates are safe.
* In runs of the server loop the setup and repick phases never outlast an event, and the expiry of unready players never has anything to
  do (`PhaseGraph`, `ExpiryIsIdle`), although `src/server_state.h` describes it as dropping players.
* `src/chase_simulation.h` says that a tick reports that one type remains; the code also reports it when none
  does. The model follows the code; `NoTypeLeftIff` says that this happens exactly when nobody lived before the tick.
* A player whose buffer does not take the line about an earlier fight of an elimination round is dropped, and
  still fights as an empty record. In the lower slot of its pair the empty record loses, and its living opponent
  moves to (-1,-1), still alive: `DroppedRounds.LowerSlotDropped`, from a consistent round. In the higher slot it
  wins, whatever the opponent's type, and the opponent is eliminated: `DroppedRounds.HigherSlotDropped`. So an
  elimination round conserves and decides as intended only if it loses nobody, and that is exactly when every
  buffer takes all lines of the round, which are fixed before it (`EliminationRounds.EliminationRound`).

## Model

| member | source | states |
|---|---|---|
| MatchRuns.ReachableStates | src/server.c:195-243 | Every state at an event boundary of any run satisfies `Inv`: admitted players are registered and have a type and a spawn, ids and registered names are pairwise distinct, nobody plays in a lobby, nobody waits in a round, winners hold one choice, living players stand on the board and eliminated ones at (-1,-1), a running lobby timer means somebody is admitted, and no setup or repick is pending |
| MatchRuns.PhaseGraph | src/server_state.c:492-606 | The phase after any event, nested drops included: the lobby is left exactly when the timer event finds its deadline passed, then for a round or the end; a round stays or ends; the end is left exactly by REMATCH, for the lobby |
| MatchRuns.StepKeepsInv | src/server.c:150-233 | Every single event keeps the invariant and, unless it is a rematch, only moves the match on |
| MatchRuns.RunKeepsInv | src/server.c:195-243 | Any sequence of events keeps the invariant, from any state that has it |
| MatchRuns.EventAdmits | src/server.c:103-193 | Every event but the timer and a rematch keeps an open lobby open, and the exactness of its timer unless it admits and disconnects players at once |
| MatchRuns.RoundsStayContested | src/server_state.c:484-490 | In a round, after a tick, after losing a player, or if it held before, at least two types are alive or the match is over within that same event |
| MatchRuns.RoundStaysContested | src/server_state.c:484-490 | Over a run: from the first due tick, or the first loss of a player, in a round on, every later state of that round has at least two types alive |
| MatchRuns.WinnerPersists | src/server_state.c:203-206 | Along any run in which nobody disconnects and there is no rematch, a match with a possible winner keeps one, through all captures and to its end |
| MatchRuns.TimerExactOnCleanRuns | src/server_state.c:309-356 | On runs whose admissions disconnect nobody, the lobby timer runs exactly while somebody is admitted |
| MatchRuns.StepKeepsTimerExact | src/server_state.c:448-454 | One event loses the exactness of the lobby timer only by admitting a player and disconnecting one |
| LobbyTimer.EventTimerExactIff | src/server_state.c:309-356 | From an exact lobby timer, any event leaves an exact one unless it is an accepted CHOICE or SPAWN that makes a candidate, the timer is not running, some buffer has no room for its announcement, and the candidate's own buffer has room for all it is sent; all this is visible before the event |
| LobbyTimer.AdmissionTimerExactIff | src/server_state.c:331-345 | The same for one admission; when it loses the timer the candidate is admitted and the timer is off |
| LobbyTimer.UnannouncedAdmission | src/server_state.c:331-355 | When the announcement of the timer drops somebody, the candidate stays connected exactly when its buffer takes the announcement, two confirmations and a snapshot showing it alone |
| LobbyTimer.RunTimerExact | src/server_state.c:448-454 | Over any run the timer is exact until the first such event, and not after it |
| LobbyTimer.TimerCanBeLost | src/server_state.c:331-345 | A run of a fresh server that ends with an admitted player and no timer |
| Joining.CandidateJoins | src/server_state.c:309-356 | In an open lobby whose deadline has not passed, a candidate stays connected through its admission exactly when its buffer takes all the lines it is sent; then it waits for the match, with its name, id, type and place, whoever else is dropped |
| Joining.JoinsInEitherOrder | src/server_commands.c:227-284 | In an open lobby whose deadline has not passed, a spectator that sends the letter of a type, of either case, and a free tile on the board, with CHOICE and SPAWN in either order, stays connected exactly when its buffer, with the two replies as far as they fit, takes all the lines of the admission; then it has joined with the type of that letter at that place |
| Admissions.AdmissionIff | src/server_state.c:331-355 | The lines of an admission: the announcement of the timer if it is off, JOINED_MATCH, JOINED, and a snapshot of the lobby after the drops these cause; they do not depend on the candidate's own buffer, and it stays connected exactly when it takes them |
| Joining.RoomToJoin | src/server_state.c:331-355 | 2200 bytes of room are enough for them, for 64-bit clock values |
| Joining.RoomToJoinInEitherOrder | src/server_commands.c:227-284 | So with 2328 bytes of room, under the same conditions on deadline, type and tile, both orders join |
| MatchRuns.CloseLobbySettles | src/server_state.c:519-548 | An expired lobby becomes a round or the end of the match within the event, keeping every player that is not lost; an unexpired one is untouched |
| MatchRuns.CloseLobbyDecides | src/server_state.c:532-547 | With fewer than two admitted players it becomes the end, whoever is lost. Nobody is lost exactly when every connected player's buffer takes the lines of the closing, which are fixed before it; then it becomes a round exactly when there are two admitted, with every admitted player alive in it |
| MatchRuns.CloseLobbyWithRoom | src/server_state.c:519-548 | 2070 bytes of room in every buffer are enough for these lines, for 64-bit round numbers |
| MatchRuns.ExpiryIsIdle | src/server_state.c:550-581 | Admitted players are always ready, so expiring unready ones never changes anything |
| MatchRuns.TimerAdvances | src/server_state.c:583-606 | The timer event moves the match on; when a tick is due it leaves a contested round or the end |
| MatchRuns.ChasingAdvances | src/server_state.c:598-605 | A tick, its position broadcasts and the end it may bring keep the invariant and leave a contested round or the end |
| MatchRuns.TickSound | src/server_state.c:599 | A chase tick keeps all player records and the connections |
| MatchRuns.FlushingAdvances | src/server.c:176-193 | Flushing any part of a buffer, or failing to, keeps the invariant |
| MatchRuns.AcceptAdvances | src/server.c:103-135 | Accepting a client keeps the invariant, with a new distinct id |
| MatchRuns.RematchInv | src/server_state.c:358-396 | A rematch keeps the invariant and leaves connected players without progress |
| Rematch.RematchIsFreshStart | src/server_state.c:358-396 | From any reachable end, REMATCH yields the phase, deadlines, round number, connections and game fields of one fresh server to which the same players have connected under their ids and have all said HELLO with their names, in any order |
| Rematch.HellosRejoin | src/server_commands.c:195-225 | After any part of those HELLOs, in any order, exactly their senders are registered, under their own names, and nothing else has changed; none is refused as a duplicate |
| ServerState.PositionsUpTo | src/server_state.c:96-112 | Broadcasting positions terminates and never grows the connected set |
| ServerState.StartActiveRound | src/server_state.c:114-119 | Starting a round terminates from every state and never grows the connected set |
| ServerState.Reevaluate | src/server_state.c:492-517 | Re-evaluation terminates from every state and never grows the connected set |
| ServerInvariant.BroadcastSound | src/server_state.c:41-72 | A broadcast with all it triggers keeps the invariant and the surviving players, follows the phase order, clears a lobby timer exactly when it lost somebody and nobody is admitted, and leaves a round contested if it was or if it lost somebody |
| ServerInvariant.PositionsSound | src/server_state.c:96-112 | The same for the position broadcasts |
| RunInvariant.BroadcastGameStateSound | src/server_state.c:74-94 | The same for the state broadcast |
| ServerInvariant.ReevaluateSound | src/server_state.c:492-517 | Re-evaluation settles each phase: the timer is cleared exactly when nobody is admitted, setup becomes a round or the end, a round stays only if contested |
| ServerInvariant.StartActiveRoundSound | src/server_state.c:114-119 | Starting a round from any consistent records leaves a consistent round or end, with every surviving player's standing |
| ServerInvariant.StartRoundSound | src/game.c:105-133 | A started round has nobody waiting and the same possible winners |
| ServerInvariant.EndGameSound | src/server_state.c:398-415 | Ending a match of unanimous winners leaves unanimous winners, whoever is dropped by the announcement |
| Results.EndOfMatchIsTold | src/server_state.c:208-225 | Whichever event ends a match, and whatever is dropped on the way: every player that stays is told in that event GAME_OVER WIN exactly if it is admitted and alive or waiting, GAME_OVER LOSE exactly if it is admitted and neither, GAME_OVER exactly if it is registered and not admitted, and no other result |
| Results.SnapshotTellsResult | src/server_state.c:276-282 | A snapshot says the same to its receiver in the end phase, and none of it in any other |
| RunInvariant.DroppedSound | src/server_state.c:175-201 | A drop, announced or not, keeps the invariant and the surviving players |
| RunInvariant.LostAdvances | src/server_commands.c:352-357 | A lost connection, by QUIT (see `Announcements.QuitIsALoss`) or by a failure, keeps the invariant and leaves a round contested or over |
| RunInvariant.MaybeAdmitDecides | src/server_state.c:309-356 | Which of its outcomes an admission has: refused in other phases or after the deadline, and otherwise joined with the others untouched and the timer running exactly if somebody is admitted |
| RunInvariant.AdmittedJoins | src/server_state.c:345-355 | From the mark on, also of a slot cleared meanwhile, an admission ends as joined |
| RunInvariant.OpenedSound | src/server_state.c:330-334 | Announcing the timer keeps the candidate admissible, and the timer survives it exactly when every buffer has room |
| RunInvariant.CommandAdvances | src/server_commands.c:359-414 | Every command keeps the invariant |
| RunInvariant.HelloAdvances | src/server_commands.c:195-225 | HELLO keeps registered names distinct and the invariant |
| RunInvariant.ChooseAdmits | src/server_commands.c:227-248 | CHOICE keeps the invariant, whatever its argument |
| RunInvariant.SpawnAdmits | src/server_commands.c:250-284 | SPAWN keeps the invariant, living players stay on the board |
| RunInvariant.GetStateAdvances | src/server_commands.c:329-337 | GET_STATE keeps the invariant, also when it costs the connection |
| Replies.RefusedCommand | src/server_commands.c:195-414 | Each command that is refused changes nothing but its sender's output, which gets the reason: not registered, registered already, name missing or taken, joined already, no letter of a type, coordinates missing, outside the board, or occupied, wrong phase, not alive, repicked already, unknown |
| Replies.AcceptedChoice | src/server_commands.c:227-248 | CHOICE with the letter of a type records that type and confirms it; if a place is recorded already, an admission follows |
| Replies.AcceptedSpawn | src/server_commands.c:250-284 | SPAWN on the board whose tile corner is free records the place and confirms it; if a type is recorded already, an admission follows |
| Replies.SpawnIsChecked | src/server_commands.c:133-152 | A SPAWN at a point where another admitted player stands is refused exactly if somebody stands on the corner of its tile; so always at whole coordinates |
| Replies.WholeSpawnIsFree | src/server_commands.c:250-284 | A SPAWN at whole coordinates that is recorded is at a place where no other admitted player stands |
| Replies.AcceptedHello | src/server_commands.c:195-225 | HELLO with a free name registers the client under it, changes nothing else, and offers it WELCOME with its id, SPECTATING, and the state of the lobby: the two invitations and LOBBY_WAITING, or LOBBY_OPEN with the seconds left, or LOBBY_CLOSED |
| Replies.SnapshotHeader | src/server_state.c:232-274 | The lines of a snapshot before the players, for each phase, with the round number and the seconds until the deadline, none once it has passed |
| Replies.LateCandidate | src/server_state.c:321-345 | A candidate in another phase or after the deadline is told that the lobby is closed and nothing else happens, or it is given up for lack of room and nobody else is harmed |
| Replies.AcceptedClient | src/server.c:103-135 | A new client gets the first free slot, the next id and the greeting, and changes nothing else; none is accepted when all slots are taken |
| Announcements.QuitIsALoss | src/server_commands.c:352-357 | As an event, QUIT is the same as a failed read |
| Announcements.BrokenFlushIsALoss | src/server.c:176-193 | A flush takes the bytes that were sent off the front; if it breaks the connection the rest is a failed read, and otherwise nothing else happens |
| Announcements.QuitLeaves | src/server_commands.c:352-357 | Whoever sends QUIT is not connected after it; if fewer than two types are left in a round without it, the match is over in the same event |
| Announcements.DepartureIsTold | src/server_state.c:175-201 | Everybody who stays through a QUIT is told first of all LEFT and the name of the registered player that left |
| Announcements.DepartureSends | src/server_state.c:175-201 | What a QUIT sends to each other slot is fixed before it: LEFT, a snapshot without the player to each registered one, and the results if the round is over; when everybody takes it nothing else happens but the end of the match or of the lobby timer |
| Announcements.QuitLosesNobodyElse | src/server_state.c:175-201 | Nobody else is lost exactly when everybody else's buffer takes that |
| Announcements.AdmissionSends | src/server_state.c:309-356 | What an admission sends to each slot is fixed before it: LOBBY_OPEN 60 if the timer is off, JOINED_MATCH to the candidate, JOINED with its name, and a snapshot to each registered one; nobody is lost exactly when all is taken, and then the candidate is admitted and waits, the timer runs for a minute if it was off, and nothing else has changed |
| Announcements.AdmissionIsTold | src/server_state.c:353-355 | Whenever a candidate joins, everybody who stays is told JOINED and its name |
| Announcements.NamelessAdmission | src/server_state.c:330-355 | When the announcement of the timer drops the candidate itself, everybody who stays is sent JOINED without a name |
| Announcements.TickSends | src/server_state.c:592-606 | What a due tick sends is fixed before it: the positions of all admitted players after it to everybody, and the results if at most one type is left |
| Announcements.RematchIsTold | src/server_state.c:358-396 | A rematch sends every registered player that stays MATCH_RESET, SPECTATING, CHOOSE_TYPE, CHOOSE_SPAWN 10 10 and LOBBY_WAITING, and nothing else |
| News.BroadcastIsTold | src/server_state.c:41-72 | Whoever stays through a broadcast, whatever it sets off, has got its line first |
| ServerCommands.ParseChoice | src/server_commands.c:58-80 | A choice is read as R exactly from "R" and "r", as P exactly from "P" and "p", as S exactly from "S" and "s", and otherwise refused |
| ServerCommands.FreeSlot | src/server_commands.c:182-193 | The first slot that is not connected |
| MatchServer.Serve | src/server.c:195-243 | A fresh server that handles any events is in the state of the run, which satisfies the invariant |
| MatchServer.Match.Handle | src/server.c:150-233 | One event in place is one step of the run |
| MatchServer.Match.constructor | src/game.c:22-30 | A new server is the empty one |
| MatchServer.Match.SendToAll | src/server_state.c:52-61 | The first pass of a broadcast: who can take the line has it, the others are returned |
| MatchServer.Match.QueueBroadcast | src/server_state.c:41-72 | The broadcast in place, with its re-entrant call, is the function |
| MatchServer.Match.BroadcastState | src/server_state.c:74-94 | The state broadcast in place, each snapshot showing the drops before it |
| MatchServer.Match.BroadcastAllPositions | src/server_state.c:96-112 | The position broadcasts in place |
| MatchServer.Match.StartTheRound | src/server_state.c:114-119 | Starting a round in place |
| MatchServer.Match.BeginRound | src/game.c:105-133 | The flags, number and deadline of a new round, in place |
| MatchServer.Match.FinishTheRepicks | src/server_state.c:121-137 | Repicks in place |
| MatchServer.Match.DropPlayer | src/server_state.c:175-201 | A drop in place |
| MatchServer.Match.QueueGameOverResult | src/server_state.c:208-225 | In place: GAME_OVER WIN for an admitted player alive or waiting, GAME_OVER LOSE for any other admitted one, GAME_OVER for a registered one, nothing for others; or failure and nothing changed if it does not fit |
| MatchServer.Match.QueueGameState | src/server_state.c:227-307 | A snapshot in place: all its lines, or failure and nothing but output changed |
| MatchServer.Match.MaybeAdmitPlayer | src/server_state.c:309-356 | Admission in place, over a slot that nested calls may clear |
| MatchServer.Match.ResetTheMatch | src/server_state.c:358-396 | A rematch in place |
| MatchServer.Match.FinishMatch | src/server_state.c:398-415 | The end of the match in place |
| MatchServer.Match.CountAliveChoiceTypes | src/server_state.c:417-446 | The second type counter computes the same number as the first |
| MatchServer.Match.ReevaluateState | src/server_state.c:448-517 | Re-evaluation in place |
| MatchServer.Match.CloseLobbyIfNeeded | src/server_state.c:519-548 | Closing the lobby in place |
| MatchServer.Match.ExpireUnreadySetupPlayers | src/server_state.c:550-581 | Expiry in place |
| MatchServer.Match.AdvanceMatchTimers | src/server_state.c:583-606 | The timers in place, with the time of the last tick |
| MatchServer.Match.ResolvePair | src/server_state.c:614-670 | One fight in place: places, flags, lines and the loser's message |
| MatchServer.Match.FightRound | src/server_state.c:608-682 | The fights of a round in place, for pairs that are a greedy pairing of the eligible players, and the bye |
| MatchServer.Match.ResolveRound | src/server_state.c:608-700 | An elimination round in place |
| MatchServer.Match.BeginTheRepicks | src/server_state.c:139-153 | The start of a repick in place |
| MatchServer.Match.FindName | src/server_commands.c:120-131 | Whether a registered player has the name |
| MatchServer.Match.CheckSpawnTaken | src/server_commands.c:133-152 | True exactly when another admitted player with a spawn has exactly these coordinates |
| MatchServer.Match.AcceptClient | src/server.c:103-135 | A new connection in the first free slot, in place |
| MatchServer.Match.Greet | src/server_commands.c:195-225 | HELLO in place |
| MatchServer.Match.TakeChoice | src/server_commands.c:227-248 | CHOICE in place |
| MatchServer.Match.TakeSpawn | src/server_commands.c:250-284 | SPAWN in place |
| MatchServer.Match.TakeRepick | src/server_commands.c:286-327 | REPICK in place |
| MatchServer.Match.GiveState | src/server_commands.c:329-337 | GET_STATE in place |
| MatchServer.Match.HandleCommandLine | src/server_commands.c:359-414 | The dispatch in place |
| Game.CountAdmitted | src/game.c:32-44 | The number of admitted players |
| Game.CountAlive | src/game.c:46-58 | The number of living players |
| Game.CheckAllAdmittedReady | src/game.c:60-78 | True exactly when all admitted players are ready and there are two |
| Game.CheckAllAliveSameChoice | src/game.c:80-103 | True exactly when all living players agree and there are two |
| Game.CheckAllAliveRepicked | src/server_state.c:155-173 | True exactly when all living players have repicked and there is one |
| Game.OneTypeMeansUnanimous | src/server_state.c:484-490 | Fewer than two types alive exactly when all living players agree |
| Chase.NearestAmongIsNearest | src/chase_simulation.c:26-68 | The search returns an edible living player, none nearer, and none as near in a lower slot; or nobody when there is none |
| Chase.FindNearestPrey | src/chase_simulation.c:26-68 | The search loop in place |
| Chase.WhoEatsWhom | src/chase_simulation.c:14-24 | Rock eats Scissors, Scissors eat Paper, Paper eats Rock, and nothing else; the chase and the fights agree on it, although their tables are separate |
| Chase.CountChoiceTypesAlive | src/chase_simulation.c:70-89 | The number of types alive |
| Chase.TakeTurn | src/chase_simulation.c:99-153 | One player's turn in place |
| Chase.SimulateChaseTick | src/chase_simulation.c:91-158 | A tick in place, and whether at most one type is left |
| ChaseGeometry.NearestBySquares | src/chase_simulation.c:53-64 | Nearest by distance is nearest by squared distance |
| ChaseGeometry.TurnShape | src/chase_simulation.c:99-153 | A turn changes the hunter's position and at most its prey, by capture, and leaves the living on the board |
| ChaseGeometry.CaptureRule | src/chase_simulation.c:114-152 | The two capture tests are one: a hunter captures exactly when max(dist - step, 0) <= 0.5; otherwise it comes nearer by exactly a step, and it never moves farther than a step |
| ChaseGeometry.TickShape | src/chase_simulation.c:91-158 | A tick moves or captures living players and nothing else; the living stay on the board, the captured lie at (-1,-1), nobody revives, somebody survives |
| ChaseGeometry.NoTypeLeftIff | src/chase_simulation.c:155-157 | A tick leaves no type at all, and so reports an end that the header does not describe, exactly when nobody lived before it |
| ChaseGeometry.TicksStayInBox | src/chase_simulation.c:91-158 | The same over any number of ticks |
| ChaseGeometry.PursuitNeverLosesGround | src/chase_simulation.c:99-153 | A hunter and the prey it chose at its turn, if both survive the tick, end it no farther apart than they began it, whichever has the lower slot |
| ChaseEndgame.CaptureFreeTick | src/chase_simulation.c:99-153 | With only hunters and their prey alive, a tick without capture brings every hunter a whole step nearer to its nearest prey |
| ChaseEndgame.ContactCaptures | src/chase_simulation.c:99-153 | With only hunters and their prey alive, a hunter that starts a tick within the radius of capture and a step of some prey makes the tick capture some prey, and every hunter lives |
| ChaseEndgame.DuelIsDecided | src/chase_simulation.c:91-158 | When the last two players are within the radius of capture, Rock against Scissors, Scissors against Paper or Paper against Rock, a tick captures the second and changes nothing else |
| ChaseEndgame.CaptureWithinReach | src/chase_simulation.c:99-153 | Within 14.15 / (0.8 dt) ticks, rounded up, some prey is captured |
| ChaseEndgame.TicksPerCapture | src/chase_simulation.h:17-18 | That number of ticks covers more than the diagonal of the board |
| ChaseEndgame.EndgameTerminates | src/chase_simulation.c:91-158 | Within that many ticks for each prey, no prey is left and every hunter is alive: the hunters' type wins |
| EndgameRuns.EndgameIsWon | src/server_state.c:583-606 | On the server: from a round in which only Rock and Scissors, only Scissors and Paper, or only Paper and Rock are alive, every run in which nobody leaves and that many ticks come due ends the match, with winners, all of the first of the two types, whatever clients send meanwhile |
| EndgameRuns.TwoTypesAreDecided | src/server_state.c:583-606 | The same without naming the types: with exactly two types alive, all winners are Rock if Paper is missing, Scissors if Rock is, Paper if Scissors are |
| EndgameRuns.EndgameIsTold | src/server_state.c:398-415 | In such a run one event ends the match, and in it every player that was alive at the start of the endgame is told GAME_OVER WIN if it is of the hunters' type and GAME_OVER LOSE if of the other |
| EndgameRuns.DuelEndsTheMatch | src/server_state.c:592-606 | A due tick that finds the last two players in contact ends the match in the same event: the hunter has won and is told so, the prey lies at (-1,-1) and is told that it has lost, as far as they stay connected |
| EndgameRuns.EndgameRun | src/server_state.c:583-606 | Until then the living players of the run are those of the chase alone after as many ticks |
| EndgameRuns.TickAlike | src/chase_simulation.c:91-158 | A tick depends on, and changes, only who lives, where, and as which type |
| EndgameRuns.EventStands | src/server_commands.c:359-414 | Outside the lobby no event but a tick and a rematch touches anybody's standing, type or place |
| Pairing.GreedyPartitions | src/game.c:148-227 | The pairs are disjoint pairs of eligible slots, lower slot first, and what is left is exactly the complement |
| Pairing.ClosestIsUnique | src/game.c:172-198 | With distinct ids one pair minimises truncated squared distance, then the two ids |
| Pairing.GreedyIsUnique | src/game.c:167-219 | With distinct ids the greedy pairing is determined |
| Pairing.FindClosest | src/game.c:169-198 | The nested search finds a pair of the unmatched that no other precedes |
| Pairing.DeletePair | src/game.c:204-219 | The two deletions in place remove exactly the two slots |
| Pairing.CollectEligible | src/game.c:150-162 | The eligible slots in order |
| Pairing.EligibleAscending | src/game.c:150-162 | A slot is collected exactly when it is alive and in the round, in ascending order |
| Pairing.BuildPairs | src/game.c:148-227 | min(n/2, max_pairs) pairs, each closest among what was left before it; the bye is the one left over when exactly one is |
| Elimination.FightsConserve | src/server_state.c:614-670 | Survivors are those alive before without one loser per decisive pair, at least half of them rounded up; each stands where somebody living stood, and distinct places stay distinct |
| Elimination.FoughtSlot | src/server_state.c:614-670 | A slot after all fights is eliminated if it lost, and otherwise only moved |
| Elimination.LosersCounted | src/server_state.c:627-669 | One loser for each decisive pair |
| EliminationRounds.EliminationRound | src/server_state.c:608-700 | A whole round on the greedy pairs, everybody alive being in it: it loses nobody exactly when every connected player's buffer takes all that the round sends to it, computed from the state before the round; then the survivors, their number, types and places are as the fights conserve them, and they alone decide: the end with at most one, a repick when all agree, otherwise a new round with everybody alive in it |
| EliminationRounds.RoundLosesNobodyIff | src/server_state.c:608-700 | A round on any pairs, from any state, loses nobody exactly when every connected player's buffer takes the lines about the fights, the bye, the positions after them, and the lines of the decision, all computed from the state before the round |
| EliminationRounds.RoundSends | src/server_state.c:608-700 | When it loses nobody, it leaves the state that the decision makes of the table after the fights, with just these lines queued |
| EliminationRounds.FightsSend | src/server_state.c:614-670 | The same for the fights alone: what they send is fixed before them, they lose nobody exactly when it is taken, and then the table is the one after the fights |
| EliminationRounds.RoomForGreedyRound | src/server_state.c:608-700 | From consistent records 6284 bytes of room in every buffer are enough for these lines |
| EliminationRounds.FoughtRecords | src/server_state.c:627-661 | The fights keep all records: winners stand on the board, losers beside it |
| EliminationRounds.RoundFoughtOk | src/server_state.c:614-684 | If everybody is told about every fight, all records are still consistent when the survivors decide, whoever is dropped by the bye and the positions |
| DroppedRounds.EmptiedOpponent | src/game.c:135-146 | An emptied record in a fight loses as the lower slot, and its opponent takes its place at (-1,-1); as the higher slot it wins, and its opponent is eliminated |
| DroppedRounds.LowerSlotDropped | src/server_state.c:627-661 | A consistent round on the greedy pairs after which a player is alive off the board, because the lower slot of its pair was dropped when the fight before was announced |
| DroppedRounds.HigherSlotDropped | src/server_state.c:627-661 | Another, in which the higher slot is dropped, and the player that would have beaten it is eliminated |
| Repicks.EliminationEnds | src/server_state.c:608-700 | If every buffer takes the lines about the fights, an elimination round leaves a repick phase, a round or the end, each with its invariant, whoever is dropped after the fights |
| Repicks.BeginRepicksSound | src/server_state.c:139-153 | Beginning the repicks leaves the repick phase, or the round or end that drops have made of it |
| Repicks.FinishRepicksSound | src/server_state.c:121-137 | Finishing repicks, whoever is dropped on the way, starts a round or ends the match, keeps all records, and gives every surviving living player the type it submitted |
| Repicks.PickAgainDecides | src/server_commands.c:311-326 | A REPICK with the letter of a type, of either case, is recorded as that type for its player alone, unless it was the last one missing: then the repicks finish, and every surviving living player has the type it submitted |
| Repicks.RepickIsConfirmed | src/server_commands.c:311-326 | While somebody is missing, the player is offered REPICK_OK with its letter and REPICK_WAITING |
| Repicks.FinishRepicksSends | src/server_state.c:121-137 | The end of the repicks sends everybody REPICK_DONE, the positions, and the start of the next round with the positions in it; nobody is lost exactly when that is taken |
| Repicks.ReevaluateRepicks | src/server_state.c:470-482 | In a repick phase re-evaluation ends the match with at most one living player, finishes complete repicks, and otherwise changes nothing |
| Repicks.RepickStep | src/server.c:150-233 | Every event of a repick phase leaves a repick phase with its invariant, or a state with the invariant of runs |
| Repicks.RepickRun | src/server.c:195-243 | So does every run from one |
| Mail.BroadcastSends | src/server_state.c:41-72 | A broadcast loses nobody exactly when every connected player's buffer takes the line, and then has changed nothing but the buffers, by that line |
| Mail.StartActiveRoundRoomy | src/server_state.c:114-119 | With 1942 bytes of room in every buffer starting a round loses nobody and leaves the started round |
| Mail.StartActiveRoundSend | src/server_state.c:96-119 | Starting a round loses nobody exactly when every buffer takes the round line and the positions of the started table |
| Mail.PositionsSend | src/server_state.c:96-112 | So do the position broadcasts, with one line for each admitted player |
| Protocol.Buffers.QueueLine | src/protocol.c:70-93 | Appends the framed line, or fails and leaves the buffer unchanged |
| Protocol.Buffers.FlushPlayerOutput | src/protocol.c:100-124 | What left and what stays are the pending bytes in order, for every sequence of send results |
| Protocol.Buffers.ReadIntoPlayerBuffer | src/protocol.c:126-153 | Appends what was read, with the result code of each case, or fails and leaves the buffer unchanged |
| Protocol.Buffers.PopLine | src/protocol.c:155-181 | Takes the first complete line and leaves the bytes after it |
| Protocol.Buffers.DrainLines | src/server.c:168-172 | The popping loop takes all complete lines, in order, and leaves the partial one |
| Protocol.Buffers.ReadAndDrain | src/client_network.c:47-59 | One read followed by that loop |
| Protocol.EnqueuedAllAppends | src/protocol.c:70-93 | Queuing several lines appends their framing or fails exactly for lack of room |
| Protocol.FlushCount | src/protocol.c:100-124 | Flushing reports completion exactly when every byte was sent |
| Protocol.FlushBreaksIff | src/protocol.c:100-124 | Flushing reports a broken connection exactly when a send fails, or takes nothing, while bytes are pending and before one blocks |
| Transport.FramingEndToEnd | src/protocol.c:70-181 | For every run of accepted lines, partial sends and reads of up to 256 bytes with draining, the reader never overflows, the popped lines are the first of the queued lines, unaltered, and all of them once nothing is under way |
| Transport.Carry | src/protocol.c:70-181 | Two pairs of fixed buffers with a wire between them do, in place, what the link does, for any events; so what is popped is a prefix of what was queued |
| Transport.DrainFramed | src/server.c:160-172 | Draining the front of a framed stream yields its first lines and leaves a partial one |
| Transport.PartialLineIsShort | src/protocol.c:143-146 | What stays in a drained buffer is shorter than a line, so a read never overflows it |
| Text.ScanPlayerPrinted | src/client_text_messages.c:80-81 | A printed PLAYER line is scanned as the same player with coordinates rounded to thousandths |
| Text.ScanRealPrinted | src/client_text_messages.c:80-81 | What "%.3f" prints "%f" reads as the value rounded to thousandths |
| Text.RoundedToNearest | src/server_state.c:288-293 | The printed decimals are those of a nearest number, an exact half going to the even side |
| Text.ScanTenthsPrinted | src/server_commands.c:281 | What "%.1f" prints in SPAWN_OK is read back as the value rounded to tenths |
| Text.ScanDecimalPrinted | src/server_state.c:245 | What "%d" prints is read back as the number |
| Client.FindPlayer | src/client_text_messages.c:22-32 | The first slot in use under the name |
| Client.ClientState.GetOrAddPlayer | src/client_text_messages.c:34-54 | The player's slot, or the first free one initialised for it |
| Client.ClientState.ParseStateSnapshotLine | src/client_text_messages.c:61-192 | What a snapshot line does to the table, in place |
| Client.ClientState.ParsePairLine | src/client_text_messages.c:126-155 | What a PAIR line does to the table, in place |
| Client.ClientState.ParseGeneralLine | src/client_text_messages.c:194-379 | What any other line does to the table, in place |
| Client.ClientState.HandleServerLine | src/client_text_messages.c:390-429 | The dispatch in place |
| ClientNames.LinesKeepNames | src/client_text_messages.c:34-54 | Whatever lines a client has handled, no two slots in use have the same name |
| ClientNames.LeftHandled | src/client_text_messages.c:363-372 | LEFT and a name take exactly the player of that name out of use, and change nothing else in the table |
| ClientNames.ResetHandled | src/client_text_messages.c:215-229 | MATCH_RESET empties the table |
| ClientNames.OtherLinesIgnored | src/client_text_messages.c:390-429 | No line changes the table but MATCH_RESET, STATE_BEGIN, and those that begin with PLAYER, PAIR or LEFT |
| SnapshotRoundTrip.SnapshotShown | src/server_state.c:227-307 | From any prior table, the lines of one snapshot leave exactly the admitted players in slot order, with name, choice, flags and rounded coordinates |
| SnapshotRoundTrip.SnapshotEndToEnd | src/client_network.c:22-60 | The same over a connection that cuts the bytes in any way, once nothing is under way |
| Sending.StepSendsLines | src/server_state.c:41-112 | Across any event of a run, a connection that survives keeps its pending bytes behind those sent, and finds only whole lines, all of which the framing carries, behind them; a new connection has been sent only such lines |
| Delivery.ClientPopsWhatWasQueued | src/client_network.c:22-60 | For any slot of any run, from its accept on and however bytes are sent and read: all bytes the server has queued are framed lines, the client never overflows and has popped the first of these lines, unaltered, and all of them once nothing is pending |
| Delivery.ActFaithful | src/protocol.c:70-181 | One event of the server, or one read of the client, keeps that |
| Delivery.SnapshotArrives | src/client_network.c:22-60 | Over any run: a client that asks for the state, once its bytes have arrived, shows exactly the players that were admitted when it asked |
| SnapshotRoundTrip.HeadersIgnored | src/client_text_messages.c:390-429 | The other lines of a snapshot never touch the table |
| SnapshotRoundTrip.PlayersShown | src/client_text_messages.c:80-101 | The PLAYER lines fill a cleared table in order, because names are distinct |
| PairRoundTrip.FightShown | src/server_state.c:637-658 | A client that shows the table before a decisive fight and handles the PAIR line that is sent about it shows the table after it |
| PairRoundTrip.ScanPairPrinted | src/client_text_messages.c:131-132 | A printed PAIR line is scanned as the fight it was printed for |
| PairRoundTrip.FightLineWhole | src/server_state.c:41-50 | A PAIR line is cut at its first zero byte; between players of the match it has none and is sent whole |
| SnapshotText.SnapshotIsShort | src/server_state.c:227-307 | Every snapshot of a consistent state takes fewer than 2048 bytes, in lines that the framing carries unaltered, for any round number and seconds of 64 bits |
| RunClock.ReachableInRange | src/server_state.c:519-548 | In every state that a run on a 64-bit clock reaches, the seconds left are such numbers, and at most two rounds have been started since the lobby opened |
| RunClock.ReachableSnapshots | src/server_state.c:227-307 | So in every such state every snapshot is that short, and is refused exactly for lack of its room |
| SnapshotText.SnapshotRefusedIff | src/server_state.c:24-39 | A snapshot is refused exactly when its bytes exceed the room left, so never with 2048 bytes of room |
| SnapshotText.FourSnapshotsFit | src/common.h:32 | Four snapshots always fit an empty buffer |

## Left out

- Sockets, `select`, signals, process start-up, and the ncurses client: replaced by arbitrary byte counts and events.
- Floating point: coordinates are exact reals, and `sqrtf` is a parameter; rounding, negative zero, infinities and NaN (which SPAWN accepts) are not modelled.
- The clock: one value during an event, although the source asks for the time several times; the sub-second clock of the chase is separate, as in the source.
- Command text: a command arrives with its word recognised and its arguments scanned (`parse_command` and the `sscanf` calls for HELLO and SPAWN are not modelled); any outcome of that scanning is covered.
- The server's receive buffers: lines reach the server as events, and framing is proved apart, in `Protocol` and `Transport`.
- Client state other than the table of players: status texts, countdowns, and what the user typed.
- Text.ScanRealPrinted: `%f` is modelled for plain decimals only, which is all that the server prints.
- Integer overflow of ids. (Round numbers stay below three, see `RunClock.ReachableInRange`.)
- Spawn tiles: no uniqueness is claimed over runs. The code compares exact coordinates with truncated ones and looks at admitted players only (see `Replies.SpawnIsChecked`).
- EliminationRounds.EliminationRound: of the rounds that lose somebody it says only that they are exactly those whose lines are not all taken; what can become of them is shown by the two rounds of `DroppedRounds`.
- Elimination rounds are not events of `Run`: the server loop never calls them. `Repicks` covers what follows one.
- The end of a chase among three types, and of elimination rounds that only tie: the code does not guarantee either.
- The refusal of a client when the server is full, a line sent outside the buffers.
