/** The two-type endgame on the running server: whatever else happens in between, once enough ticks
    have come due and nobody has left, the match is over and the hunters' type has won. */
module EndgameRuns {
  import opened Common
  import opened Protocol
  import opened Game
  import opened Chase
  import opened ChaseGeometry
  import opened ChaseEndgame
  import opened ServerState
  import opened ServerCommands
  import opened ServerInvariant
  import opened ServerRuns
  import opened RunInvariant
  import opened MatchRuns
  import opened Results

  // ---------------------------------------------------------------- what the chase looks at

  ghost predicate LivesLike(p: Player, q: Player) {
    IsAlive(p) == IsAlive(q) && (IsAlive(p) ==> p.choice == q.choice && p.x == q.x && p.y == q.y)
  }

  /** The same slots alive, with the same types, in the same places. */
  ghost predicate SameLiving(ps: seq<Player>, qs: seq<Player>) {
    |ps| == |qs| && forall k :: 0 <= k < |ps| ==> LivesLike(ps[k], qs[k])
  }

  lemma SameLivingTransitive(a: seq<Player>, b: seq<Player>, c: seq<Player>)
    requires SameLiving(a, b) && SameLiving(b, c)
    ensures SameLiving(a, c)
  {
    forall k | 0 <= k < |a|
      ensures LivesLike(a[k], c[k])
    {
      assert LivesLike(a[k], b[k]) && LivesLike(b[k], c[k]);
    }
  }

  lemma SameEdible(ps: seq<Player>, qs: seq<Player>, hunter: nat, prey: nat, root: real -> real)
    requires SameLiving(ps, qs) && hunter < |ps| && prey < |ps| && IsAlive(ps[hunter])
    ensures IsEdible(ps, hunter, prey) == IsEdible(qs, hunter, prey)
    ensures IsAlive(ps[prey]) ==> Distance(ps, hunter, prey, root) == Distance(qs, hunter, prey, root)
  {
    assert LivesLike(ps[hunter], qs[hunter]) && LivesLike(ps[prey], qs[prey]);
  }

  lemma {:induction false} SameNearest(ps: seq<Player>, qs: seq<Player>, hunter: nat, n: nat, root: real -> real)
    requires SameLiving(ps, qs) && hunter < |ps| && n <= |ps| && IsAlive(ps[hunter])
    ensures NearestAmong(ps, hunter, n, root) == NearestAmong(qs, hunter, n, root)
  {
    hide IsEdible, Distance, SameLiving, IsAlive;
    SameLength(ps, qs);
    if n > 0 {
      SameNearest(ps, qs, hunter, n - 1, root);
      SameEdible(ps, qs, hunter, n - 1, root);
      EdibleLives(ps, hunter, n - 1);
      var best := NearestAmong(ps, hunter, n - 1, root);
      if best != NOBODY {
        EdibleLives(ps, hunter, best);
        SameEdible(ps, qs, hunter, best, root);
      }
    }
  }

  lemma SameLength(ps: seq<Player>, qs: seq<Player>)
    requires SameLiving(ps, qs)
    ensures |ps| == |qs|
  {
  }

  lemma EdibleLives(ps: seq<Player>, hunter: nat, prey: nat)
    requires hunter < |ps| && prey < |ps|
    ensures IsEdible(ps, hunter, prey) ==> IsAlive(ps[prey]) && prey != hunter
  {
  }

  /** A turn depends on nothing else, and leaves nothing else different. */
  lemma ActAlike(ps: seq<Player>, qs: seq<Player>, i: nat, step: real, root: real -> real)
    requires SameLiving(ps, qs) && i < |ps|
    ensures SameLiving(Act(ps, i, step, root), Act(qs, i, step, root))
  {
    assert LivesLike(ps[i], qs[i]);
    if IsAlive(ps[i]) {
      SameNearest(ps, qs, i, |ps|, root);
      hide NearestAmong;
      var prey := NearestPrey(ps, i, root);
      if prey != NOBODY {
        EdibleLives(ps, i, prey);
        SameEdible(ps, qs, i, prey, root);
        assert LivesLike(ps[prey], qs[prey]);
        PursuitAlike(ps, qs, i, prey, step, root);
      }
    }
  }

  lemma PursuitAlike(ps: seq<Player>, qs: seq<Player>, i: nat, prey: nat, step: real, root: real -> real)
    requires SameLiving(ps, qs) && i < |ps| && NearestPrey(ps, i, root) == NearestPrey(qs, i, root) == prey
    requires Distance(ps, i, prey, root) == Distance(qs, i, prey, root)
    ensures SameLiving(Act(ps, i, step, root), Act(qs, i, step, root))
  {
    assert LivesLike(ps[i], qs[i]) && LivesLike(ps[prey], qs[prey]);
    hide NearestPrey, LengthSquared, Advance;
    var dist := Distance(ps, i, prey, root);
    if dist > CAPTURE_RADIUS {
      var move := if step > dist then dist else step;
      var moved, moved' := ps[i := Moved(ps[i], ps[prey], move, dist)], qs[i := Moved(qs[i], qs[prey], move, dist)];
      assert LivesLike(moved[i], moved'[i]) && LivesLike(moved[prey], moved'[prey]);
      assert Distance(moved, i, prey, root) == Distance(moved', i, prey, root);
    }
  }

  lemma {:induction false} TickUpToAlike(ps: seq<Player>, qs: seq<Player>, n: nat, step: real, root: real -> real)
    requires SameLiving(ps, qs) && n <= |ps|
    ensures SameLiving(TickUpTo(ps, n, step, root), TickUpTo(qs, n, step, root))
  {
    hide Act;
    if n > 0 {
      TickUpToAlike(ps, qs, n - 1, step, root);
      ActAlike(TickUpTo(ps, n - 1, step, root), TickUpTo(qs, n - 1, step, root), n - 1, step, root);
    }
  }

  lemma TickAlike(ps: seq<Player>, qs: seq<Player>, dt: real, root: real -> real)
    requires SameLiving(ps, qs)
    ensures SameLiving(Tick(ps, dt, root), Tick(qs, dt, root))
  {
    TickUpToAlike(ps, qs, |ps|, StepLength(dt), root);
  }

  lemma SameTypes(ps: seq<Player>, qs: seq<Player>)
    requires SameLiving(ps, qs)
    ensures TypesAlive(ps) == TypesAlive(qs)
  {
    forall k | 0 <= k < |ps|
      ensures LivesLike(ps[k], qs[k])
    {
    }
    assert forall c :: HasType(ps, c) <==> HasType(qs, c);
  }

  // ---------------------------------------------------------------- what events leave alone

  /** Across an event: who stays connected has the same standing, type and place; who has newly
      connected has none. */
  ghost predicate Stands(p: Player, q: Player) {
    q.connected ==>
      && IsAdmitted(q) == IsAdmitted(p)
      && (IsAdmitted(p) ==>
            q.choice == p.choice && q.x == p.x && q.y == p.y && (q.alive || q.waiting) == (p.alive || p.waiting))
  }

  ghost predicate AllStand(ps: Table, qs: Table) {
    forall k: Slot :: Stands(ps[k], qs[k])
  }

  lemma KeptStands(s: Server, r: Server)
    requires Kept(s, r)
    ensures AllStand(s.players, r.players)
  {
    forall k: Slot
      ensures Stands(s.players[k], r.players[k])
    {
      assert Survives(s.players[k], r.players[k]);
    }
  }

  lemma StandsThenKept(a: Server, b: Server, c: Server)
    requires AllStand(a.players, b.players) && Kept(b, c)
    ensures AllStand(a.players, c.players)
  {
    forall k: Slot
      ensures Stands(a.players[k], c.players[k])
    {
      assert Stands(a.players[k], b.players[k]) && Survives(b.players[k], c.players[k]);
    }
  }

  lemma OneStands(s: Server, i: Slot, p: Player)
    requires Stands(s.players[i], p)
    ensures AllStand(s.players, WithPlayer(s, i, p).players)
  {
    assert forall k: Slot :: k != i ==> WithPlayer(s, i, p).players[k] == s.players[k];
  }

  lemma LostStands(s: Server, i: Slot, now: nat)
    requires Sound(s)
    ensures Kept(s, Lost(s, i, now))
  {
    hide Dropped, Reevaluate, Kept;
    var s' := Dropped(s, i, true, now);
    DroppedSound(s, i, true, now);
    ReevaluateSound(s', now);
    SettledKept(s', Reevaluate(s', now));
    SurvivesTransitive(s, s', Reevaluate(s', now));
  }

  lemma SettledKept(s: Server, r: Server)
    requires Settled(s, r)
    ensures Kept(s, r)
  {
  }

  lemma GivenUpStands(s: Server, i: Slot, now: nat)
    requires Sound(s)
    ensures Kept(s, Reevaluate(Cleared(s, i), now))
  {
    ClearedSound(s, i);
    ClearedHeader(s, i);
    hide Cleared, Reevaluate, Kept;
    ReevaluateSound(Cleared(s, i), now);
    SettledKept(Cleared(s, i), Reevaluate(Cleared(s, i), now));
    SurvivesTransitive(s, Cleared(s, i), Reevaluate(Cleared(s, i), now));
  }

  lemma ToldStands(s: Server, i: Slot, line: string)
    ensures AllStand(s.players, Tell(s, i, line).players)
  {
    hide Told;
    ToldOk(s.players[i], line);
    OneStands(s, i, Told(s.players[i], line));
  }

  /** A CHOICE or a SPAWN after the lobby: recorded for somebody who does not play, and refused. */
  lemma RecordedStands(s: Server, i: Slot, p: Player, now: nat)
    requires Inv(s) && s.phase != LobbyOpen && s.players[i].connected && PlayerOk(p, s.nextId)
    requires var q := s.players[i];
             && q.registered && !q.admitted
             && p == q.(choice := p.choice, choiceChosen := p.choiceChosen, x := p.x, y := p.y,
                        spawnChosen := p.spawnChosen, outbuf := p.outbuf)
    ensures AllStand(s.players, MaybeAdmit(WithPlayer(s, i, p), i, now).players)
  {
    var s1 := WithPlayer(s, i, p);
    OneStands(s, i, p);
    PlayerChangeAdvances(s, i, p);
    GivenUpStands(s1, i, now);
    hide Cleared, Reevaluate, Sound, Kept, AllStand, Inv;
    if Enqueued(p.outbuf, "ERROR lobby_closed").None? {
      StandsThenKept(s, s1, Reevaluate(Cleared(s1, i), now));
    } else {
      var p' := p.(outbuf := Enqueued(p.outbuf, "ERROR lobby_closed").value);
      OneStands(s, i, p');
      assert WithPlayer(s1, i, p') == WithPlayer(s, i, p');
    }
  }

  lemma ChooseStands(s: Server, i: Slot, arg: Option<string>, now: nat)
    requires Inv(s) && s.phase != LobbyOpen && s.players[i].connected
    ensures AllStand(s.players, HandleChoose(s, i, arg, now).players)
  {
    hide Tell, MaybeAdmit, Told, AllStand;
    ToldStands(s, i, "ERROR register_first");
    ToldStands(s, i, "ERROR already_joined");
    ToldStands(s, i, "ERROR bad_choice");
    var p := s.players[i];
    if p.registered && !p.admitted && ParseChoice(arg).Some? {
      var c := ParseChoice(arg).value;
      var q := p.(choice := c, choiceChosen := true);
      ToldOk(q, ChoiceOkLine(c));
      assert PlayerOk(p, s.nextId);
      assert PlayerOk(Told(q, ChoiceOkLine(c)), s.nextId);
      RecordedStands(s, i, Told(q, ChoiceOkLine(c)), now);
    }
  }

  lemma SpawnStands(s: Server, i: Slot, at: Option<(real, real)>, now: nat)
    requires Inv(s) && s.phase != LobbyOpen && s.players[i].connected
    ensures AllStand(s.players, HandleSpawn(s, i, at, now).players)
  {
    hide Tell, MaybeAdmit, Told, AllStand, SpawnTaken;
    ToldStands(s, i, "ERROR register_first");
    ToldStands(s, i, "ERROR already_joined");
    ToldStands(s, i, "ERROR usage_SPAWN_x_y");
    ToldStands(s, i, "ERROR bad_spawn");
    ToldStands(s, i, "ERROR spawn_taken");
    var p := s.players[i];
    if p.registered && !p.admitted && at.Some? && InBox(at.value.0, at.value.1) {
      var (x, y) := at.value;
      var q := p.(x := x, y := y, spawnChosen := true);
      ToldOk(q, SpawnOkLine(x, y));
      assert PlayerOk(p, s.nextId);
      assert PlayerOk(Told(q, SpawnOkLine(x, y)), s.nextId);
      RecordedStands(s, i, Told(q, SpawnOkLine(x, y)), now);
    }
  }

  lemma HelloStands(s: Server, i: Slot, name: Option<Name>, now: nat)
    requires Inv(s) && s.players[i].connected
    ensures AllStand(s.players, HandleHello(s, i, name, now).players)
  {
    hide Tell, ToldAll, NameTaken, LobbyStatusLines, AllStand;
    ToldStands(s, i, "ERROR already_registered");
    ToldStands(s, i, "ERROR usage_HELLO_name");
    ToldStands(s, i, "ERROR duplicate_name");
    var p := s.players[i];
    if !p.registered && name.Some? {
      assert PlayerOk(p, s.nextId);
      var q := FreshProgress(p.(name := name.value, registered := true));
      var lines := [WelcomeLine(p.id), "SPECTATING"] + LobbyStatusLines(s, now);
      ToldAllOk(q, lines);
      OneStands(s, i, ToldAll(q, lines));
    }
  }

  lemma GetStateStands(s: Server, i: Slot, now: nat)
    requires Inv(s) && s.players[i].connected
    ensures AllStand(s.players, HandleGetState(s, i, now).players)
  {
    hide Cleared, Reevaluate, EnqueuedAll, SnapshotLines, Sound, AllStand, Kept;
    var p := s.players[i];
    match EnqueuedAll(p.outbuf, SnapshotLines(s, p, now))
    case None =>
      GivenUpStands(s, i, now);
      KeptStands(s, Reevaluate(Cleared(s, i), now));
    case Some(outbuf) => OneStands(s, i, p.(outbuf := outbuf));
  }

  lemma CommandStands(s: Server, i: Slot, c: Command, now: nat)
    requires Inv(s) && s.phase != LobbyOpen && s.players[i].connected && !(c.Rematch? && s.phase == GameOver)
    ensures AllStand(s.players, HandleCommand(s, i, c, now).players)
  {
    hide Sound, Kept, AllStand, HandleHello, HandleChoose, HandleSpawn, HandleGetState, Tell, Dropped, Reevaluate, FinishRepicks;
    match c
    case Unknown => ToldStands(s, i, "ERROR bad_command");
    case Hello(name) => HelloStands(s, i, name, now);
    case Choose(arg) => ChooseStands(s, i, arg, now);
    case Spawn(at) => SpawnStands(s, i, at, now);
    case PickAgain(arg) => ToldStands(s, i, "ERROR not_in_repick_phase");
    case GetState => GetStateStands(s, i, now);
    case Rematch => ToldStands(s, i, "ERROR rematch_not_available");
    case Quit =>
      LostStands(s, i, now);
      KeptStands(s, Lost(s, i, now));
  }

  /** Outside the lobby no event but a tick and a rematch touches anybody's standing. */
  lemma EventStands(w: World, e: Event, root: real -> real)
    requires Inv(w.server) && w.server.phase != LobbyOpen && !e.Timer? && !IsRematch(w.server, e)
    ensures AllStand(w.server.players, Step(w, e, root).server.players)
  {
    hide Kept, AllStand, HandleCommand, Lost, Accepted;
    var s := w.server;
    EverybodyStands(s.players);
    match e
    case Accept => AcceptStands(s);
    case ReadFailure(i, now) =>
      LostStands(s, i, now);
      KeptStands(s, Lost(s, i, now));
    case Line(i, c, now) => if s.players[i].connected { CommandStands(s, i, c, now); }
    case Write(i, sends, now) => if s.players[i].connected { FlushStands(s, i, sends, now); }
  }

  lemma EverybodyStands(ps: Table)
    ensures AllStand(ps, ps)
  {
  }

  lemma AcceptStands(s: Server)
    requires Inv(s)
    ensures AllStand(s.players, Accepted(s).players)
  {
    AcceptedRecords(s);
    hide Accepted, FreeSlot;
  }

  lemma FlushStands(s: Server, i: Slot, sends: seq<SendResult>, now: nat)
    requires Inv(s) && s.players[i].connected
    ensures AllStand(s.players, Flushing(s, i, sends, now).players)
  {
    hide Lost;
    var p := s.players[i];
    var (sent, outcome) := FlushCount(|p.outbuf|, sends);
    var q := p.(outbuf := p.outbuf[sent..]);
    assert PlayerOk(p, s.nextId);
    assert PlayerOk(q, s.nextId);
    PlayerChangeAdvances(s, i, q);
    OneStands(s, i, q);
    var s1 := WithPlayer(s, i, q);
    if outcome == Broken {
      LostStands(s1, i, now);
      StandsThenKept(s, s1, Lost(s1, i, now));
    }
  }

  /** After the tick itself, nothing in its event touches anybody's standing. */
  lemma ChasingStands(s: Server, now: nat, root: real -> real)
    requires Inv(s) && s.phase == RoundActive
    ensures AllStand(Tick(s.players, CHASE_TICK_SECONDS, root), Chasing(s, now, root).players)
  {
    TickSound(s, root);
    hide Tick, Reevaluate, PositionsUpTo, Kept, Records, Nested;
    var s0 := s.(players := Tick(s.players, CHASE_TICK_SECONDS, root));
    PositionsSound(s0, MAX_PLAYERS, now);
    var s1 := BroadcastPositions(s0, now);
    NestedKept(s0, s1);
    ReevaluateSound(s1, now);
    SettledKept(s1, Reevaluate(s1, now));
    SurvivesTransitive(s0, s1, Reevaluate(s1, now));
    KeptStands(s0, Chasing(s, now, root));
  }

  /** In a round standing is living. */
  lemma StandingLives(ps: Table, r: Server)
    requires AllStand(ps, r.players) && Connected(ps) <= Connected(r.players)
    requires NobodyWaits(ps) && NobodyWaits(r.players)
    ensures SameLiving(ps, r.players)
  {
    forall k: Slot
      ensures LivesLike(ps[k], r.players[k])
    {
      assert Stands(ps[k], r.players[k]);
      assert k in Connected(ps) <==> ps[k].connected;
      assert k in Connected(r.players) <==> r.players[k].connected;
    }
  }

  lemma StandingWins(ps: Table, r: Server, k: Slot)
    requires AllStand(ps, r.players) && Connected(ps) <= Connected(r.players) && IsWinner(ps[k])
    ensures IsWinner(r.players[k]) && r.players[k].choice == ps[k].choice
  {
    assert Stands(ps[k], r.players[k]);
    assert k in Connected(ps);
  }

  // ---------------------------------------------------------------- the run

  /** How many ticks have come due, and when the last of them did. */
  datatype Pulse = Pulse(count: nat, last: real)

  predicate IsBeat(p: Pulse, e: Event) { e.Timer? && e.clock - p.last >= CHASE_TICK_SECONDS }

  function NextPulse(p: Pulse, e: Event): Pulse {
    if IsBeat(p, e) then Pulse(p.count + 1, e.clock) else p
  }

  /** The ticks that come due among the timer events of a run. */
  function Beats(events: seq<Event>, last: real): Pulse
    decreases |events|
  {
    if events == [] then Pulse(0, last) else
      NextPulse(Beats(events[..|events| - 1], last), events[|events| - 1])
  }

  /** Where a run from an endgame is after the ticks of `p`, `ts` being the table that the chase alone would
      have reached. */
  ghost predicate Hunting(m: World, ts: seq<Player>, p: Pulse, hunter: Slot, x: char) {
    && Inv(m.server)
    && if m.server.phase == RoundActive then
         m.lastChaseTick == p.last && SameLiving(ts, m.server.players) && (p.count > 0 ==> Contested(m.server))
       else
         m.server.phase == GameOver && IsWinner(m.server.players[hunter]) && m.server.players[hunter].choice == x
  }

  /** An event that is not a tick. */
  lemma NoBeat(m: World, e: Event, root: real -> real, ts: seq<Player>, p: Pulse, hunter: Slot, x: char)
    requires Hunting(m, ts, p, hunter, x) && !IsRematch(m.server, e)
    requires Connected(m.server.players) <= Connected(Step(m, e, root).server.players)
    requires m.server.phase == GameOver || !IsBeat(p, e)
    requires |ts| == MAX_PLAYERS && IsAlive(ts[hunter]) && ts[hunter].choice == x
    ensures Hunting(Step(m, e, root), ts, p, hunter, x)
  {
    var s, r := m.server, Step(m, e, root);
    StepKeepsInv(m, e, root);
    PhaseGraph(m, e, root);
    if e.Timer? {
      TimerStep(m, e, root);
      ExpiryIsIdle(s, e.now);
      assert r == m;
    } else {
      EventStands(m, e, root);
      RunsOn(m, e, root);
      hide Step, Inv, Stands, AllStand, SameLiving, Contested;
      if s.phase == RoundActive {
        RoundHunter(s, ts, hunter);
        StandingWins(s.players, r.server, hunter);
        if r.server.phase == RoundActive {
          RoundNobodyWaits(s);
          RoundNobodyWaits(r.server);
          StandingLives(s.players, r.server);
          SameLivingTransitive(ts, s.players, r.server.players);
        }
      } else {
        StandingWins(s.players, r.server, hunter);
      }
    }
  }

  lemma RunsOn(m: World, e: Event, root: real -> real)
    requires Inv(m.server) && !e.Timer? && !IsRematch(m.server, e)
    ensures Step(m, e, root).lastChaseTick == m.lastChaseTick
    ensures m.server.phase == RoundActive && Contested(m.server) ==> Contested(Step(m, e, root).server)
  {
    StepKeepsInv(m, e, root);
    hide HandleCommand, Lost, Flushing, Accepted, Inv, Contested;
  }

  lemma RoundHunter(s: Server, ts: seq<Player>, hunter: Slot)
    requires SameLiving(ts, s.players) && IsAlive(ts[hunter])
    ensures IsWinner(s.players[hunter]) && s.players[hunter].choice == ts[hunter].choice
  {
    assert LivesLike(ts[hunter], s.players[hunter]);
  }

  lemma RoundNobodyWaits(s: Server)
    requires Inv(s) && s.phase == RoundActive
    ensures NobodyWaits(s.players)
  {
  }

  /** A tick. */
  lemma Beat(m: World, e: Event, root: real -> real, ts: seq<Player>, p: Pulse, hunter: Slot, x: char)
    requires Hunting(m, ts, p, hunter, x) && m.server.phase == RoundActive
    requires IsBeat(p, e) && |ts| == MAX_PLAYERS
    requires Connected(m.server.players) <= Connected(Step(m, e, root).server.players)
    requires var ts' := Tick(ts, CHASE_TICK_SECONDS, root); IsAlive(ts'[hunter]) && ts'[hunter].choice == x
    ensures Hunting(Step(m, e, root), Tick(ts, CHASE_TICK_SECONDS, root), NextPulse(p, e), hunter, x)
  {
    var s, r := m.server, Step(m, e, root);
    StepKeepsInv(m, e, root);
    PhaseGraph(m, e, root);
    TimerStep(m, e, root);
    ExpiryIsIdle(s, e.now);
    assert r == World(Chasing(s, e.now, root), e.clock);
    TickAlike(ts, s.players, CHASE_TICK_SECONDS, root);
    TickSound(s, root);
    ChasingStands(s, e.now, root);
    ChasingAdvances(s, e.now, root);
    var ps: Table, ts' := Tick(s.players, CHASE_TICK_SECONDS, root), Tick(ts, CHASE_TICK_SECONDS, root);
    var s0 := s.(players := ps);
    hide Step, Inv, Stands, AllStand, SameLiving, Contested, Tick, Chasing;
    RoundHunter(s0, ts', hunter);
    StandingWins(ps, r.server, hunter);
    if r.server.phase == RoundActive {
      RoundNobodyWaits(r.server);
      SoundNobodyWaits(s0);
      StandingLives(ps, r.server);
      SameLivingTransitive(ts', ps, r.server.players);
    }
  }

  lemma SoundNobodyWaits(s: Server)
    requires Sound(s) && s.phase == RoundActive
    ensures NobodyWaits(s.players)
  {
  }

  lemma HunterLives(ps: Table, n: nat, root: real -> real, x: char, y: char, hunter: Slot)
    requires Endgame(ps, x, y) && hunter in Herd(ps, x)
    ensures var ts := Ticks(ps, n, CHASE_TICK_SECONDS, root);
            |ts| == MAX_PLAYERS && IsAlive(ts[hunter]) && ts[hunter].choice == x
  {
    TicksHunt(ps, n, CHASE_TICK_SECONDS, root, x, y);
    hide Ticks;
    assert hunter in Herd(Ticks(ps, n, CHASE_TICK_SECONDS, root), x);
  }

  lemma OverIsOver(m: World, e: Event, root: real -> real)
    requires Inv(m.server) && m.server.phase == GameOver && !IsRematch(m.server, e)
    ensures Step(m, e, root).server.phase == GameOver
  {
    PhaseGraph(m, e, root);
  }

  /** The table that the chase alone reaches in the ticks of `p`. */
  function ChaseAlone(ps: Table, p: Pulse, root: real -> real): seq<Player> {
    Ticks(ps, p.count, CHASE_TICK_SECONDS, root)
  }

  /** One event of such a run, a tick or not. */
  lemma HuntingStep(
      ps: Table, m: World, e: Event, root: real -> real, p: Pulse, x: char, y: char, hunter: Slot)
    requires Endgame(ps, x, y) && hunter in Herd(ps, x)
    requires Hunting(m, ChaseAlone(ps, p, root), p, hunter, x) && !IsRematch(m.server, e)
    requires Connected(m.server.players) <= Connected(Step(m, e, root).server.players)
    ensures Hunting(Step(m, e, root), ChaseAlone(ps, NextPulse(p, e), root), NextPulse(p, e), hunter, x)
  {
    hide Step, Inv, Endgame, SameLiving, Contested, IsWinner, Tick, Connected;
    HunterLives(ps, p.count, root, x, y, hunter);
    if IsBeat(p, e) && m.server.phase == RoundActive {
      HunterLives(ps, p.count + 1, root, x, y, hunter);
      Beat(m, e, root, ChaseAlone(ps, p, root), p, hunter, x);
    } else {
      NoBeat(m, e, root, ChaseAlone(ps, p, root), p, hunter, x);
      if m.server.phase == GameOver {
        OverIsOver(m, e, root);
      }
    }
  }

  /** A run from an endgame in which nobody leaves follows the chase, tick by tick, until the match
      is over; and then the hunters have won. */
  lemma {:induction false} EndgameRun(w: World, events: seq<Event>, root: real -> real, x: char, y: char, hunter: Slot)
    requires Inv(w.server) && w.server.phase == RoundActive && NobodyLeaves(w, events, root)
    requires Endgame(w.server.players, x, y) && hunter in Herd(w.server.players, x)
    ensures var p := Beats(events, w.lastChaseTick);
            Hunting(Run(w, events, root), ChaseAlone(w.server.players, p, root), p, hunter, x)
    decreases |events|
  {
    var ps := w.server.players;
    if events == [] {
      HuntingStart(w, root, hunter, x);
    } else {
      var k := |events| - 1;
      LastEvent(w, events, root);
      hide Step, Inv, Endgame, Hunting, ChaseAlone, NextPulse, Connected, IsRematch, NobodyLeaves, Run, Herd;
      EndgameRun(w, events[..k], root, x, y, hunter);
      HuntingStep(ps, Run(w, events[..k], root), events[k], root, Beats(events[..k], w.lastChaseTick), x, y, hunter);
    }
  }

  lemma LastEvent(w: World, events: seq<Event>, root: real -> real)
    requires events != [] && NobodyLeaves(w, events, root)
    ensures var k := |events| - 1; var m := Run(w, events[..k], root);
            && NobodyLeaves(w, events[..k], root) && Run(w, events, root) == Step(m, events[k], root)
            && !IsRematch(m.server, events[k])
            && Connected(m.server.players) <= Connected(Step(m, events[k], root).server.players)
  {
    hide Step, Connected, IsRematch;
  }

  lemma HuntingStart(w: World, root: real -> real, hunter: Slot, x: char)
    requires Inv(w.server) && w.server.phase == RoundActive
    ensures Hunting(w, ChaseAlone(w.server.players, Pulse(0, w.lastChaseTick), root), Pulse(0, w.lastChaseTick), hunter, x)
  {
    hide Tick;
    assert SameLiving(w.server.players, w.server.players);
  }

  /** After enough ticks of the chase no prey is left, however many more follow. */
  lemma PreyStayCaptured(ps: Table, n: nat, root: real -> real, x: char, y: char)
    requires IsRoot(root) && Endgame(ps, x, y) && HasType(ps, x) && InBoxWhileAlive(ps)
    requires n >= |Herd(ps, y)| * TicksPerCapture(CHASE_TICK_SECONDS)
    ensures TypesAlive(Ticks(ps, n, CHASE_TICK_SECONDS, root)) <= 1
  {
    hide Ticks, TicksPerCapture, IsRoot, TypesAlive, Herd, Endgame;
    var b := |Herd(ps, y)| * TicksPerCapture(CHASE_TICK_SECONDS);
    var dt := CHASE_TICK_SECONDS;
    EndgameTerminates(ps, dt, root, x, y);
    TicksHunt(ps, b, dt, root, x, y);
    var ts := Ticks(ps, b, dt, root);
    HuntedMeansEndgame(ps, ts, x, y);
    TicksHunt(ts, n - b, dt, root, x, y);
    TicksAdd(ps, b, n - b, dt, root);
    OnlyHunters(ts, Ticks(ts, n - b, dt, root), x, y);
  }

  lemma OnlyHunters(ps: seq<Player>, r: seq<Player>, x: char, y: char)
    requires |ps| == |r| && Herd(ps, y) == {} && Hunted(ps, r, x, y)
    ensures TypesAlive(r) <= 1
  {
    assert Herd(r, y) == {};
    assert forall c :: HasType(r, c) ==> c == x by {
      forall k | 0 <= k < |r| && IsAlive(r[k])
        ensures r[k].choice == x
      {
        assert k !in Herd(r, y);
      }
    }
  }

  /** The endgame on the server. From a round in which exactly two types are alive, one of them the
      prey of the other, consider any run in which nobody leaves, whatever clients send, whoever
      joins, and however often the timers fire. Once as many ticks have come due as the prey can last
      at most, the match is over, somebody has won, and all winners are of the hunters' type. */
  lemma EndgameIsWon(w: World, events: seq<Event>, root: real -> real, x: char, y: char)
    requires Inv(w.server) && w.server.phase == RoundActive && IsRoot(root)
    requires Endgame(w.server.players, x, y) && HasType(w.server.players, x) && HasType(w.server.players, y)
    requires NobodyLeaves(w, events, root)
    requires Beats(events, w.lastChaseTick).count >= |Herd(w.server.players, y)| * TicksPerCapture(CHASE_TICK_SECONDS)
    ensures var r := Run(w, events, root).server;
            && r.phase == GameOver && HasWinner(r.players)
            && forall k :: 0 <= k < MAX_PLAYERS && IsWinner(r.players[k]) ==> r.players[k].choice == x
  {
    var ps := w.server.players;
    var hunter: Slot :| IsAlive(ps[hunter]) && ps[hunter].choice == x;
    hide Run, Ticks, TicksPerCapture, IsRoot, NobodyLeaves, Beats, TypesAlive, Records;
    EndgameRun(w, events, root, x, y, hunter);
    var p := Beats(events, w.lastChaseTick);
    SoundRecords(w.server);
    AliveInBox(w.server);
    PreyStayCaptured(ps, p.count, root, x, y);
    SomeTicks(ps, y);
    var r := Run(w, events, root).server;
    if r.phase == RoundActive {
      SameTypes(ChaseAlone(ps, p, root), r.players);
    }
    WinnersAgree(r, hunter);
  }

  /** The rules of the game, on the server: with two types left, Rock wins against Scissors, Scissors
      against Paper, and Paper against Rock, in every run in which nobody leaves and enough ticks come
      due. */
  lemma TwoTypesAreDecided(w: World, events: seq<Event>, root: real -> real)
    requires Inv(w.server) && w.server.phase == RoundActive && IsRoot(root) && TypesAlive(w.server.players) == 2
    requires NobodyLeaves(w, events, root)
    requires Beats(events, w.lastChaseTick).count >= MAX_PLAYERS * TicksPerCapture(CHASE_TICK_SECONDS)
    ensures var ps, r := w.server.players, Run(w, events, root).server;
            && r.phase == GameOver && HasWinner(r.players)
            && forall k :: 0 <= k < MAX_PLAYERS && IsWinner(r.players[k]) ==>
                 r.players[k].choice == if !HasType(ps, 'P') then 'R' else if !HasType(ps, 'R') then 'S' else 'P'
  {
    var ps := w.server.players;
    var x := if !HasType(ps, 'P') then 'R' else if !HasType(ps, 'R') then 'S' else 'P';
    var y := if x == 'R' then 'S' else if x == 'S' then 'P' else 'R';
    TwoTypesLeft(w.server);
    HerdFits(ps, y);
    hide Run, TicksPerCapture, IsRoot, NobodyLeaves, Beats, TypesAlive, HasType, Records, HasWinner, Herd;
    FewerTicks(|Herd(ps, y)|, TicksPerCapture(CHASE_TICK_SECONDS));
    EndgameIsWon(w, events, root, x, y);
  }

  lemma TwoTypesLeft(s: Server)
    requires Sound(s) && TypesAlive(s.players) == 2
    ensures var ps := s.players;
            var x := if !HasType(ps, 'P') then 'R' else if !HasType(ps, 'R') then 'S' else 'P';
            var y := if x == 'R' then 'S' else if x == 'S' then 'P' else 'R';
            Endgame(ps, x, y) && HasType(ps, x) && HasType(ps, y)
  {
    var ps := s.players;
    var x := if !HasType(ps, 'P') then 'R' else if !HasType(ps, 'R') then 'S' else 'P';
    var y := if x == 'R' then 'S' else if x == 'S' then 'P' else 'R';
    forall k | 0 <= k < |ps| && IsAlive(ps[k])
      ensures ps[k].choice == x || ps[k].choice == y
    {
      assert PlayerOk(ps[k], s.nextId) && HasType(ps, ps[k].choice);
    }
  }

  lemma {:induction false} HerdFits(ps: seq<Player>, y: char)
    ensures |Herd(ps, y)| <= |ps|
  {
    if ps != [] {
      var n := |ps| - 1;
      HerdFits(ps[..n], y);
      assert forall k :: 0 <= k < n ==> ps[..n][k] == ps[k];
      assert Herd(ps, y) <= Herd(ps[..n], y) + {n};
      SubsetCounted(Herd(ps, y), Herd(ps[..n], y) + {n});
    } else {
      assert Herd(ps, y) == {};
    }
  }

  lemma SubsetCounted(a: set<int>, b: set<int>)
    requires a <= b
    ensures |a| <= |b|
  {
    assert b == a + (b - a);
  }

  lemma FewerTicks(a: nat, b: nat)
    requires a <= MAX_PLAYERS
    ensures a * b <= MAX_PLAYERS * b
  {
  }

  lemma SomeTicks(ps: Table, y: char)
    requires HasType(ps, y)
    ensures |Herd(ps, y)| * TicksPerCapture(CHASE_TICK_SECONDS) > 0
  {
    hide TicksPerCapture;
    var k :| 0 <= k < MAX_PLAYERS && IsAlive(ps[k]) && ps[k].choice == y;
    assert k in Herd(ps, y);
    assert TicksPerCapture(CHASE_TICK_SECONDS) != 0;
    PositiveCount(|Herd(ps, y)|, TicksPerCapture(CHASE_TICK_SECONDS));
  }

  lemma PositiveCount(a: nat, b: nat)
    requires a > 0 && b > 0
    ensures a * b > 0
  {
  }

  lemma WinnersAgree(r: Server, hunter: Slot)
    requires Inv(r) && r.phase == GameOver && IsWinner(r.players[hunter])
    ensures HasWinner(r.players)
    ensures forall k :: 0 <= k < MAX_PLAYERS && IsWinner(r.players[k]) ==> r.players[k].choice == r.players[hunter].choice
  {
    hide Records;
    forall k | 0 <= k < MAX_PLAYERS && IsWinner(r.players[k])
      ensures r.players[k].choice == r.players[hunter].choice
    {
      assert k < hunter || k == hunter || hunter < k;
    }
  }

  // ---------------------------------------------------------------- what they are told

  /** Outside the lobby an admitted player that stays remains admitted, with its type. */
  lemma TypeStays(m: World, e: Event, root: real -> real, k: Slot)
    requires Inv(m.server) && m.server.phase != LobbyOpen && !IsRematch(m.server, e) && IsAdmitted(m.server.players[k])
    requires Connected(m.server.players) <= Connected(Step(m, e, root).server.players)
    ensures var p, q := m.server.players[k], Step(m, e, root).server.players[k]; IsAdmitted(q) && q.choice == p.choice
    ensures Inv(Step(m, e, root).server) && Step(m, e, root).server.phase != LobbyOpen
  {
    var s, r := m.server, Step(m, e, root).server;
    StepKeepsInv(m, e, root);
    PhaseGraph(m, e, root);
    assert k in Connected(s.players);
    if !e.Timer? {
      EventStands(m, e, root);
      hide Step, Inv, Kept;
      assert Stands(s.players[k], r.players[k]);
    } else {
      TimerStep(m, e, root);
      ExpiryIsIdle(s, e.now);
      if TickDue(m, e.now, e.clock) {
        TickedType(s, e.now, root, k);
      }
    }
  }

  lemma TickedType(s: Server, now: nat, root: real -> real, k: Slot)
    requires Inv(s) && s.phase == RoundActive && IsAdmitted(s.players[k]) && Chasing(s, now, root).players[k].connected
    ensures var q := Chasing(s, now, root).players[k]; IsAdmitted(q) && q.choice == s.players[k].choice
  {
    TickShape(s.players, CHASE_TICK_SECONDS, root);
    ChasingStands(s, now, root);
    hide Tick, Chasing, Inv;
    var ps: Table := Tick(s.players, CHASE_TICK_SECONDS, root);
    assert Chased(s.players[k], ps[k]);
    assert Stands(ps[k], Chasing(s, now, root).players[k]);
  }

  lemma {:induction false} TypesStay(w: World, events: seq<Event>, root: real -> real, k: Slot)
    requires Inv(w.server) && w.server.phase != LobbyOpen && NobodyLeaves(w, events, root) && IsAdmitted(w.server.players[k])
    ensures var p, q := w.server.players[k], Run(w, events, root).server.players[k]; IsAdmitted(q) && q.choice == p.choice
    ensures Inv(Run(w, events, root).server) && Run(w, events, root).server.phase != LobbyOpen
    decreases |events|
  {
    hide Step, Inv, Connected, IsRematch;
    if events != [] {
      LastEvent(w, events, root);
      hide NobodyLeaves;
      var n := |events| - 1;
      TypesStay(w, events[..n], root, k);
      TypeStays(Run(w, events[..n], root), events[n], root, k);
    }
  }

  /** The event that ends the match. */
  lemma {:induction false} EndingEvent(w: World, events: seq<Event>, root: real -> real) returns (n: nat)
    requires w.server.phase != GameOver && Run(w, events, root).server.phase == GameOver && NobodyLeaves(w, events, root)
    ensures n < |events| && NobodyLeaves(w, events[..n], root) && NobodyLeaves(w, events[..n + 1], root)
    ensures Run(w, events[..n], root).server.phase != GameOver && Run(w, events[..n + 1], root).server.phase == GameOver
    ensures Run(w, events[..n + 1], root) == Step(Run(w, events[..n], root), events[n], root)
    decreases |events|
  {
    LastEvent(w, events, root);
    hide Step, NobodyLeaves;
    n := |events| - 1;
    assert events[..n + 1] == events;
    if Run(w, events[..n], root).server.phase == GameOver {
      var m := EndingEvent(w, events[..n], root);
      assert events[..n][..m] == events[..m] && events[..n][..m + 1] == events[..m + 1];
      n := m;
    }
  }

  /** In such a run some event ends the match, and with it every hunter of the endgame is told that it
      has won, and every prey that it has lost. */
  lemma EndgameIsTold(w: World, events: seq<Event>, root: real -> real, x: char, y: char) returns (n: nat)
    requires Inv(w.server) && w.server.phase == RoundActive && IsRoot(root)
    requires Endgame(w.server.players, x, y) && HasType(w.server.players, x) && HasType(w.server.players, y)
    requires NobodyLeaves(w, events, root)
    requires Beats(events, w.lastChaseTick).count >= |Herd(w.server.players, y)| * TicksPerCapture(CHASE_TICK_SECONDS)
    ensures n < |events| && Run(w, events[..n], root).server.phase != GameOver && Run(w, events[..n + 1], root).server.phase == GameOver
    ensures var ps, s, r := w.server.players, Run(w, events[..n], root).server, Run(w, events[..n + 1], root).server;
            forall k: Slot :: IsAlive(ps[k]) ==>
              (if ps[k].choice == x then "GAME_OVER WIN" else "GAME_OVER LOSE") in NewsOf(s, events[n], r, k)
  {
    var ps := w.server.players;
    EndgameIsWon(w, events, root, x, y);
    n := EndingEvent(w, events, root);
    var someone := AnyHunter(ps, x);
    assert forall k: Slot :: IsAlive(ps[k]) ==> ps[k].choice == x || ps[k].choice == y;
    hide Run, Ticks, TicksPerCapture, IsRoot, NobodyLeaves, Beats, NewsOf, Inv, Endgame, HasType, IsAlive;
    forall k: Slot | IsAlive(ps[k])
      ensures (if ps[k].choice == x then "GAME_OVER WIN" else "GAME_OVER LOSE")
              in NewsOf(Run(w, events[..n], root).server, events[n], Run(w, events[..n + 1], root).server, k)
    {
      FighterIsTold(w, events, n, root, x, y, if ps[k].choice == x then k else someone, k);
    }
  }

  lemma AnyHunter(ps: Table, x: char) returns (hunter: Slot)
    requires HasType(ps, x)
    ensures IsAlive(ps[hunter]) && ps[hunter].choice == x
  {
    var k: Slot :| IsAlive(ps[k]) && ps[k].choice == x;
    hunter := k;
  }

  /** One player of the endgame, at the event that ends it. */
  lemma FighterIsTold(w: World, events: seq<Event>, n: nat, root: real -> real, x: char, y: char, hunter: Slot, k: Slot)
    requires Inv(w.server) && w.server.phase == RoundActive && n < |events|
    requires NobodyLeaves(w, events[..n], root) && NobodyLeaves(w, events[..n + 1], root)
    requires Endgame(w.server.players, x, y) && IsAlive(w.server.players[hunter]) && w.server.players[hunter].choice == x
    requires IsAlive(w.server.players[k])
    requires Run(w, events[..n + 1], root) == Step(Run(w, events[..n], root), events[n], root)
    requires Run(w, events[..n], root).server.phase != GameOver && Run(w, events[..n + 1], root).server.phase == GameOver
    ensures var s, r := Run(w, events[..n], root).server, Run(w, events[..n + 1], root).server;
            && (k == hunter ==> "GAME_OVER WIN" in NewsOf(s, events[n], r, k))
            && (w.server.players[k].choice == y ==> "GAME_OVER LOSE" in NewsOf(s, events[n], r, k))
  {
    var m, r := Run(w, events[..n], root), Run(w, events[..n + 1], root).server;
    var p := Beats(events[..n + 1], w.lastChaseTick);
    EndgameRun(w, events[..n + 1], root, x, y, hunter);
    assert Inv(r) && IsWinner(r.players[hunter]) && r.players[hunter].choice == x;
    TypesStay(w, events[..n + 1], root, k);
    RunKeepsInv(w, events[..n], root);
    hide Run, NobodyLeaves, Step, NewsOf, Inv, Ticks;
    WinnersAgree(r, hunter);
    EndOfMatchIsTold(m, events[n], root, k);
  }

  /** A tick that finds the last two players in contact ends the match: the hunter has won and is told
      so, and the prey has been captured and is told that it has lost. */
  lemma DuelEndsTheMatch(w: World, now: nat, clock: real, root: real -> real, hunter: Slot, prey: Slot)
    requires Inv(w.server) && w.server.phase == RoundActive && TickDue(w, now, clock) && IsRoot(root)
    requires IsAlive(w.server.players[hunter]) && IsAlive(w.server.players[prey])
    requires forall k: Slot :: IsAlive(w.server.players[k]) ==> k == hunter || k == prey
    requires Hunts(w.server.players[hunter].choice, w.server.players[prey].choice)
    requires Squared(w.server.players, hunter, prey) <= 0.25
    ensures var s, e := w.server, Timer(now, clock);
            var r := Step(w, e, root).server;
            var p, q := r.players[hunter], r.players[prey];
            && r.phase == GameOver
            && (p.connected ==> IsWinner(p) && "GAME_OVER WIN" in NewsOf(s, e, r, hunter))
            && (q.connected ==> !IsWinner(q) && q.x == -1.0 && q.y == -1.0 && "GAME_OVER LOSE" in NewsOf(s, e, r, prey))
  {
    var s, e := w.server, Timer(now, clock);
    var r := Step(w, e, root).server;
    var t := s.players[prey := s.players[prey].(alive := false, x := -1.0, y := -1.0)];
    DuelIsDecided(s.players, hunter, prey, CHASE_TICK_SECONDS, root);
    TimerStep(w, e, root);
    TimerAdvances(w, now, clock, root);
    ExpiryIsIdle(s, now);
    assert r == Chasing(s, now, root);
    ChasingStands(s, now, root);
    StepKeepsInv(w, e, root);
    PhaseGraph(w, e, root);
    hide Step, Tick, Chasing, NewsOf, TickDue, Squared;
    assert AllStand(t, r.players);
    LastOneStands(s, t, r, hunter, prey);
    if r.players[hunter].connected {
      EndOfMatchIsTold(w, e, root, hunter);
    }
    if r.players[prey].connected {
      EndOfMatchIsTold(w, e, root, prey);
    }
  }

  lemma LastOneStands(s: Server, t: Table, r: Server, hunter: Slot, prey: Slot)
    requires Inv(s) && Inv(r) && s.phase == RoundActive && (r.phase == RoundActive || r.phase == GameOver) && Contested(r)
    requires IsAlive(s.players[hunter]) && IsAlive(s.players[prey]) && hunter != prey
    requires forall k: Slot :: IsAlive(s.players[k]) ==> k == hunter || k == prey
    requires t == s.players[prey := s.players[prey].(alive := false, x := -1.0, y := -1.0)]
    requires AllStand(t, r.players)
    ensures r.phase == GameOver
    ensures r.players[hunter].connected ==> IsWinner(r.players[hunter])
    ensures var q := r.players[prey]; q.connected ==> IsAdmitted(q) && !q.alive && !q.waiting && q.x == -1.0 && q.y == -1.0
  {
    assert PlayerOk(s.players[prey], s.nextId) && PlayerOk(s.players[hunter], s.nextId);
    assert Stands(t[hunter], r.players[hunter]) && Stands(t[prey], r.players[prey]);
    forall k: Slot | IsAlive(r.players[k])
      ensures k == hunter
    {
      assert Stands(t[k], r.players[k]);
      assert s.players[k].connected ==> PlayerOk(s.players[k], s.nextId);
    }
    hide PlayerOk, Stands, Records;
    if r.phase == RoundActive {
      OneLives(r.players, hunter);
    }
  }

  lemma OneLives(ps: Table, i: Slot)
    requires forall k: Slot :: IsAlive(ps[k]) ==> k == i
    ensures TypesAlive(ps) <= 1
  {
  }
}
