/** A rematch is a fresh start (reset_match against init_server_state, add_player and HELLO). */
module Rematch {
  import opened Common
  import opened Protocol
  import opened ServerState
  import opened ServerCommands
  import opened ServerInvariant
  import opened ServerRuns
  import opened RunInvariant

  /** Everything about a player but the bytes waiting to be sent to it. */
  function GameFields(p: Player): Player { p.(outbuf := "") }

  /** A rematch keeps who is connected, except registered players that cannot take its lines. */
  predicate Stays(p: Player) {
    p.connected && (p.registered ==> EnqueuedAll(p.outbuf, RESET_LINES).Some?)
  }

  /** A server that has just started, and to which the players that stay have just connected, each
      in its slot and under its id. */
  function Restarted(s: Server): Server {
    EmptyServer().(
      nextId := s.nextId,
      players := seq(MAX_PLAYERS, k requires 0 <= k < MAX_PLAYERS =>
        if Stays(s.players[k]) then Told(NewPlayer(s.players[k].id), "INFO connected_send_HELLO_name") else UNUSED_SLOT))
  }

  /** The HELLOs by which the players in the slots of `order` give their names again, in turn. */
  function Hellos(s: Server, order: seq<Slot>, times: seq<nat>): seq<Event>
    requires |times| == |order|
  {
    seq(|order|, j requires 0 <= j < |order| =>
      var name := s.players[order[j]].name;
      Line(order[j], Hello(if IsName(name) then Some(name) else None), times[j]))
  }

  /** What a player is that has just connected, and possibly said HELLO. */
  function Newcomer(id: int, name: Option<string>): Player {
    match name
    case None => NewPlayer(id)
    case Some(n) => NewPlayer(id).(registered := true, name := n)
  }

  /** The restarted server after the players in the slots of `done` have said HELLO. */
  ghost predicate Rejoined(s: Server, m: Server, done: seq<Slot>) {
    && m == EmptyServer().(players := m.players, nextId := s.nextId)
    && forall k: Slot :: m.players[k].connected == Stays(s.players[k])
                         && (Stays(s.players[k]) ==> SlotRejoined(s, m, done, k))
  }

  ghost predicate SlotRejoined(s: Server, m: Server, done: seq<Slot>, k: Slot) {
    var p := s.players[k];
    GameFields(m.players[k]) == Newcomer(p.id, if k in done then Some(p.name) else None)
  }

  lemma RestartedRejoined(s: Server)
    ensures Rejoined(s, Restarted(s), [])
  {
    hide EnqueuedAll, Told;
    forall k: Slot | Stays(s.players[k])
      ensures SlotRejoined(s, Restarted(s), [], k) && Restarted(s).players[k].connected
    {
      ToldOk(NewPlayer(s.players[k].id), "INFO connected_send_HELLO_name");
    }
  }

  /** HELLO with a free name gives a newcomer that name, and touches nobody else. */
  lemma HelloNames(m: Server, i: Slot, id: int, name: Name, now: nat)
    requires GameFields(m.players[i]) == Newcomer(id, None) && !NameTaken(m.players, name)
    ensures var r := HandleHello(m, i, Some(name), now);
            && r == m.(players := r.players)
            && GameFields(r.players[i]) == Newcomer(id, Some(name))
            && forall k: Slot :: k != i ==> r.players[k] == m.players[k]
  {
    hide ToldAll, NameTaken, LobbyStatusLines, WelcomeLine;
    var p := m.players[i];
    assert p.registered == GameFields(p).registered == false;
    var q := FreshProgress(p.(name := name, registered := true));
    ToldAllOk(q, [WelcomeLine(p.id), "SPECTATING"] + LobbyStatusLines(m, now));
  }

  /** The names of the players are distinct, so no HELLO is refused as a duplicate. */
  lemma NameIsFree(s: Server, m: Server, done: seq<Slot>, i: Slot)
    requires Records(s) && Rejoined(s, m, done) && i !in done
    requires s.players[i].connected && s.players[i].registered
    requires forall k :: k in done ==> s.players[k].registered
    ensures !NameTaken(m.players, s.players[i].name)
  {
    forall k: Slot | IsRegistered(m.players[k])
      ensures m.players[k].name != s.players[i].name
    {
      assert SlotRejoined(s, m, done, k);
      assert GameFields(m.players[k]).registered && GameFields(m.players[k]).name == m.players[k].name;
      assert k in done && k != i;
    }
  }

  ghost predicate NoRepeats(order: seq<Slot>) {
    forall i, j :: 0 <= i < j < |order| ==> order[i] != order[j]
  }

  lemma NextRejoins(s: Server, m: Server, done: seq<Slot>, i: Slot, now: nat)
    requires Records(s) && Rejoined(s, m, done) && i !in done
    requires s.players[i].registered && Stays(s.players[i])
    requires forall k :: k in done ==> s.players[k].registered
    ensures IsName(s.players[i].name)
    ensures Rejoined(s, HandleHello(m, i, Some(s.players[i].name), now), done + [i])
  {
    var p := s.players[i];
    assert PlayerOk(p, s.nextId);
    NameIsFree(s, m, done, i);
    hide Records, PlayerOk, NameTaken, EnqueuedAll, HandleHello, GameFields, Newcomer;
    assert SlotRejoined(s, m, done, i);
    HelloNames(m, i, p.id, p.name, now);
    var r := HandleHello(m, i, Some(p.name), now);
    HelloKeepsConnection(m, i, p.name, now);
    forall k: Slot
      ensures r.players[k].connected == Stays(s.players[k])
      ensures Stays(s.players[k]) ==> SlotRejoined(s, r, done + [i], k)
    {
      assert Stays(s.players[k]) ==> SlotRejoined(s, m, done, k);
    }
  }

  lemma HelloKeepsConnection(m: Server, i: Slot, name: Name, now: nat)
    ensures HandleHello(m, i, Some(name), now).players[i].connected == m.players[i].connected
  {
    hide ToldAll, NameTaken, LobbyStatusLines, Told;
    var p := m.players[i];
    var q := FreshProgress(p.(name := name, registered := true));
    ToldAllOk(q, [WelcomeLine(p.id), "SPECTATING"] + LobbyStatusLines(m, now));
    ToldOk(p, "ERROR already_registered");
    ToldOk(p, "ERROR duplicate_name");
  }

  lemma {:induction false} HellosRejoin(
      s: Server, order: seq<Slot>, times: seq<nat>, clock: real, root: real -> real)
    requires Records(s) && |times| == |order| && NoRepeats(order)
    requires forall k :: k in order ==> s.players[k].registered && Stays(s.players[k])
    ensures Rejoined(s, Run(World(Restarted(s), clock), Hellos(s, order, times), root).server, order)
    decreases |order|
  {
    hide Records, Stays, Rejoined, HandleCommand, Restarted;
    var w := World(Restarted(s), clock);
    if order == [] {
      RestartedRejoined(s);
    } else {
      var n := |order| - 1;
      var i := order[n];
      HellosRejoin(s, order[..n], times[..n], clock, root);
      assert Hellos(s, order, times)[..n] == Hellos(s, order[..n], times[..n]);
      var m := Run(w, Hellos(s, order[..n], times[..n]), root).server;
      assert order[..n] + [i] == order;
      NextRejoins(s, m, order[..n], i, times[n]);
      RejoinedConnected(s, m, order[..n], i);
      HelloHandled(m, i, s.players[i].name, times[n]);
    }
  }

  lemma RejoinedConnected(s: Server, m: Server, done: seq<Slot>, i: Slot)
    requires Rejoined(s, m, done) && Stays(s.players[i])
    ensures m.players[i].connected
  {
  }

  lemma HelloHandled(m: Server, i: Slot, name: Name, now: nat)
    ensures HandleCommand(m, i, Hello(Some(name)), now) == HandleHello(m, i, Some(name), now)
  {
  }

  lemma ResetFields(p: Player, nextId: int)
    requires p.connected && PlayerOk(p, nextId)
    ensures var q := ResetPlayer(p);
            if Stays(p) then q.connected && GameFields(q) == Newcomer(p.id, if p.registered then Some(p.name) else None)
            else !q.connected
  {
    hide EnqueuedAll;
    assert FreshProgress(p).outbuf == p.outbuf;
  }

  /** From any reachable end of a match, REMATCH leaves what a new server would be to which the same
      players had connected, under their ids, and had all said HELLO, in whatever order, with their
      names: the same phase, deadlines and round number, the same connections, and the same game
      fields of every connected player. Only registered players that cannot take the announcement
      are lost. */
  lemma RematchIsFreshStart(s: Server, order: seq<Slot>, times: seq<nat>, clock: real, root: real -> real)
    requires Inv(s) && s.phase == GameOver && |times| == |order| && NoRepeats(order)
    requires forall k: Slot :: k in order <==> s.players[k].registered && Stays(s.players[k])
    ensures var r, m := ResetMatch(s), Run(World(Restarted(s), clock), Hellos(s, order, times), root).server;
            && r == m.(players := r.players)
            && forall k: Slot :: r.players[k].connected == m.players[k].connected == Stays(s.players[k])
                                 && (r.players[k].connected ==> GameFields(r.players[k]) == GameFields(m.players[k]))
  {
    HellosRejoin(s, order, times, clock, root);
    var r, m := ResetMatch(s), Run(World(Restarted(s), clock), Hellos(s, order, times), root).server;
    hide EnqueuedAll, ResetPlayer, GameFields, Newcomer, Run, Hellos, Restarted;
    forall k: Slot
      ensures r.players[k].connected == Stays(s.players[k])
      ensures r.players[k].connected ==> GameFields(r.players[k]) == GameFields(m.players[k])
    {
      if s.players[k].connected {
        assert PlayerOk(s.players[k], s.nextId);
        ResetFields(s.players[k], s.nextId);
        assert Stays(s.players[k]) ==> SlotRejoined(s, m, order, k);
      }
    }
  }
}
