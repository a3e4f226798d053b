/** What a drop in the middle of an elimination round can do. The round goes on with the emptied
    record: as the lower slot of a pair it loses, and its opponent moves off the board; as the higher
    slot it wins, and its opponent is eliminated by nobody. */
module DroppedRounds {
  import opened Common
  import opened Text
  import opened Protocol
  import opened Game
  import opened Pairing
  import opened ServerState
  import opened ServerInvariant
  import opened SnapshotText
  import opened Mail
  import opened Elimination
  import opened EliminationRounds

  /** In a fight against a living player an emptied record loses as the lower slot and wins as the
      higher one, whatever the type of the other. */
  lemma EmptiedOpponent(ps: Table, p: Pair)
    requires InTable(p)
    requires (ps[p.a] == EMPTY_SLOT && IsRps(ps[p.b].choice)) || (ps[p.b] == EMPTY_SLOT && IsRps(ps[p.a].choice))
    ensures Result(ps, p) == -1
    ensures Fought(ps, p)[p.a] == Eliminated(ps[p.a]) && Fought(ps, p)[p.b] == ps[p.b].(x := ps[p.a].x, y := ps[p.a].y)
  {
    assert Result(ps, p) == -1;
    assert Fighter(ps[p.a], ps[p.b], -1) == Eliminated(ps[p.a]);
    hide Result, Eliminated;
  }

  // ---------------------------------------------------------------- a round with one full buffer

  /** Output of a client that reads nothing: `n` replies to lines that are no commands. */
  function Unread(n: nat): string {
    if n == 0 then "" else Frame("ERROR bad_command") + Unread(n - 1)
  }

  lemma {:induction false} UnreadLength(n: nat)
    ensures |Unread(n)| == 18 * n
  {
    if n > 0 {
      UnreadLength(n - 1);
    }
  }

  function InPlay(id: int, name: string, choice: char, x: real, outbuf: string): Player {
    EMPTY_SLOT.(id := id, connected := true, registered := true, admitted := true, alive := true, inRound := true,
                choiceChosen := true, spawnChosen := true, name := name, choice := choice, x := x, y := 0.0, outbuf := outbuf)
  }

  /** Four players in a round, of types R, S, `c` and `d`, next to each other in two pairs; the client
      in slot `full` has not read its last 455 replies, which leave two bytes of room. */
  function FloodedSlot(k: Slot, c: char, d: char, full: Slot): Player {
    var outbuf := if k == full then Unread(455) else "";
    if k == 0 then InPlay(1, "a", 'R', 0.0, outbuf)
    else if k == 1 then InPlay(2, "b", 'S', 1.0, outbuf)
    else if k == 2 then InPlay(3, "c", c, 5.0, outbuf)
    else if k == 3 then InPlay(4, "d", d, 6.0, outbuf)
    else UNUSED_SLOT
  }

  function FloodedTable(c: char, d: char, full: Slot): Table {
    seq(MAX_PLAYERS, k requires 0 <= k < MAX_PLAYERS => FloodedSlot(k, c, d, full))
  }

  function FloodedRound(c: char, d: char, full: Slot): Server {
    Server(FloodedTable(c, d, full), 5, 1, RoundActive, 0, 0, 0)
  }

  const FIRST := Pair(0, 1)
  const SECOND := Pair(2, 3)

  lemma InPlayOk(id: int, name: string, choice: char, x: real, outbuf: string)
    requires 0 < id < 5 && IsName(name) && IsRps(choice) && 0.0 <= x < 10.0 && |outbuf| <= OUTBUF_SIZE
    ensures PlayerOk(InPlay(id, name, choice, x, outbuf), 5)
  {
    hide IsName, IsRps;
  }

  lemma FloodedOk(k: Slot, c: char, d: char, full: Slot)
    requires IsRps(c) && IsRps(d) && k < 4
    ensures PlayerOk(FloodedSlot(k, c, d, full), 5)
  {
    UnreadLength(455);
    hide Unread, PlayerOk, InPlay;
    var outbuf := if k == full then Unread(455) else "";
    if k == 0 {
      InPlayOk(1, "a", 'R', 0.0, outbuf);
    } else if k == 1 {
      InPlayOk(2, "b", 'S', 1.0, outbuf);
    } else if k == 2 {
      InPlayOk(3, "c", c, 5.0, outbuf);
    } else {
      InPlayOk(4, "d", d, 6.0, outbuf);
    }
  }

  lemma FloodedSlots(c: char, d: char, full: Slot)
    ensures forall k: Slot :: var p := FloodedTable(c, d, full)[k];
              && p.connected == (k < 4)
              && (k < 4 ==> IsAlive(p) && p.inRound && !p.waiting && p.id == k + 1 && p.name == ["abcd"[k]])
  {
    hide Unread;
  }

  lemma FloodedSound(c: char, d: char, full: Slot)
    requires IsRps(c) && IsRps(d)
    ensures var s := FloodedRound(c, d, full);
            && Sound(s) && s.phase == RoundActive
            && forall k :: 0 <= k < MAX_PLAYERS && IsAlive(s.players[k]) ==> s.players[k].inRound
  {
    var s := FloodedRound(c, d, full);
    FloodedSlots(c, d, full);
    forall k: Slot | k < 4
      ensures PlayerOk(s.players[k], 5)
    {
      FloodedOk(k, c, d, full);
    }
    hide PlayerOk, FloodedTable, FloodedSlot;
    assert Distinct(s.players);
    assert Records(s);
  }

  lemma FloodedEligible(c: char, d: char, full: Slot)
    ensures Eligible(FloodedRound(c, d, full).players) == [0, 1, 2, 3]
  {
    var ps := FloodedRound(c, d, full).players;
    hide Unread;
    NobodyBehind(ps, 4, MAX_PLAYERS);
    assert ps[..MAX_PLAYERS] == ps;
    FirstFour(ps);
  }

  lemma {:induction false} NobodyBehind(ps: seq<Player>, n: nat, m: nat)
    requires n <= m <= |ps| && forall k :: n <= k < m ==> !IsEligible(ps[k])
    ensures Eligible(ps[..m]) == Eligible(ps[..n])
    decreases m
  {
    if n < m {
      NobodyBehind(ps, n, m - 1);
      assert ps[..m][..m - 1] == ps[..m - 1];
    }
  }

  lemma FirstFour(ps: seq<Player>)
    requires |ps| >= 4 && forall k :: 0 <= k < 4 ==> IsEligible(ps[k])
    ensures Eligible(ps[..4]) == [0, 1, 2, 3]
  {
    assert ps[..4][..3] == ps[..3] && ps[..3][..2] == ps[..2] && ps[..2][..1] == ps[..1] && ps[..1][..0] == [];
    assert Eligible(ps[..1]) == [0];
    assert Eligible(ps[..2]) == [0, 1];
    assert Eligible(ps[..3]) == [0, 1, 2];
  }

  lemma FloodedGreedy(c: char, d: char, full: Slot)
    ensures var s := FloodedRound(c, d, full); Greedy(s.players, Eligible(s.players), [FIRST, SECOND], [])
  {
    FloodedEligible(c, d, full);
    FloodedOnLine(c, d, full);
    hide Eligible, FloodedTable, Greedy, OnLine;
    TwoGreedy(FloodedTable(c, d, full));
  }

  lemma OneGreedy(ps: seq<Player>)
    requires OnLine(ps)
    ensures Greedy(ps, [2, 3], [SECOND], [])
  {
    SecondIsClosest(ps);
    TwoWithoutSecond();
    assert Greedy(ps, [], [], []);
    hide IsClosest, Without, SlotsOf, OnLine;
    assert [SECOND][1..] == [];
  }

  lemma TwoGreedy(ps: seq<Player>)
    requires OnLine(ps)
    ensures Greedy(ps, [0, 1, 2, 3], [FIRST, SECOND], [])
  {
    FirstIsClosest(ps);
    OneGreedy(ps);
    FourWithoutFirst();
    hide IsClosest, Without, SlotsOf, OnLine, Greedy;
    assert [FIRST, SECOND][1..] == [SECOND];
    NextGreedy(ps, [0, 1, 2, 3], [FIRST, SECOND], []);
  }

  lemma {:induction false} NextGreedy(ps: seq<Player>, slots: seq<int>, pairs: seq<Pair>, left: seq<int>)
    requires pairs != [] && SlotsOf(ps, slots) && IsClosest(ps, slots, pairs[0])
    requires Greedy(ps, Without(slots, pairs[0]), pairs[1..], left)
    ensures Greedy(ps, slots, pairs, left)
  {
    hide SlotsOf, IsClosest, Without;
  }

  lemma FloodedOnLine(c: char, d: char, full: Slot)
    ensures OnLine(FloodedTable(c, d, full))
  {
    hide Unread;
  }

  lemma FourWithoutFirst()
    ensures Without([0, 1, 2, 3], FIRST) == [2, 3]
  {
    var s := [0, 1, 2, 3];
    assert s[1..] == [1, 2, 3] && s[1..][1..] == [2, 3] && s[1..][1..][1..] == [3] && s[1..][1..][1..][1..] == [];
    assert Without([3], FIRST) == [3];
    assert Without([2, 3], FIRST) == [2] + Without([3], FIRST);
    assert Without([1, 2, 3], FIRST) == Without([2, 3], FIRST);
  }

  lemma TwoWithoutSecond()
    ensures Without([2, 3], SECOND) == []
  {
    var s := [2, 3];
    assert s[1..] == [3] && s[1..][1..] == [];
    assert Without([3], SECOND) == [];
  }

  /** Where the four stand. */
  ghost predicate OnLine(ps: seq<Player>) {
    && |ps| >= 4
    && ps[0].x == 0.0 && ps[1].x == 1.0 && ps[2].x == 5.0 && ps[3].x == 6.0
    && ps[0].y == ps[1].y == ps[2].y == ps[3].y == 0.0
    && ps[0].id == 1 && ps[1].id == 2 && ps[2].id == 3 && ps[3].id == 4
  }

  lemma OnLineDistances(ps: seq<Player>)
    requires OnLine(ps)
    ensures Dist2(ps[0], ps[1]) == 1 && Dist2(ps[2], ps[3]) == 1
    ensures Dist2(ps[0], ps[2]) >= 2 && Dist2(ps[0], ps[3]) >= 2 && Dist2(ps[1], ps[2]) >= 2 && Dist2(ps[1], ps[3]) >= 2
  {
  }

  lemma FirstIsClosest(ps: seq<Player>)
    requires OnLine(ps)
    ensures SlotsOf(ps, [0, 1, 2, 3]) && IsClosest(ps, [0, 1, 2, 3], FIRST)
  {
    OnLineDistances(ps);
    hide Dist2;
  }

  lemma SecondIsClosest(ps: seq<Player>)
    requires OnLine(ps)
    ensures SlotsOf(ps, [2, 3]) && IsClosest(ps, [2, 3], SECOND) && SlotsOf(ps, [])
  {
    OnLineDistances(ps);
    hide Dist2;
  }

  // ---------------------------------------------------------------- the first fight

  lemma TextBefore(s: string)
    requires |s| >= 2 && s[0] != '\0' && s[1] != '\0'
    ensures |CString(s)| >= 2
  {
    assert CString(s[1..]) == [s[1]] + CString(s[1..][1..]);
  }

  /** Living players of two types end no round when another one is dropped. */
  lemma RoundGoesOn(s: Server, i: Slot, j: Slot, now: nat)
    requires s.phase == RoundActive && IsAlive(s.players[i]) && IsAlive(s.players[j])
    requires s.players[i].choice == 'R' && s.players[j].choice == 'P'
    ensures Reevaluate(s, now) == s
  {
    CountAtMostOne(s.players, IsAlive);
    assert i != j && HasType(s.players, 'R') && HasType(s.players, 'P');
    hide CountIf;
  }

  /** A line to everybody that does not fit one buffer, in a round that goes on. */
  lemma FloodedBroadcast(s: Server, line: string, full: Slot, i: Slot, j: Slot, now: nat)
    requires s.phase == RoundActive && 2 <= |line| <= 130
    requires s.players[full].connected && |s.players[full].outbuf| == OUTBUF_SIZE - 2
    requires forall k: Slot :: k != full && s.players[k].connected ==> s.players[k].outbuf == ""
    requires i != full && IsAlive(s.players[i]) && s.players[i].choice == 'R'
    requires j != full && IsAlive(s.players[j]) && s.players[j].choice == 'P'
    ensures var r := Broadcast(s, line, now);
            && r == s.(players := r.players) && r.players[full] == EMPTY_SLOT
            && forall k: Slot :: k != full ==> SamePlayer(s.players[k], r.players[k])
                                               && (s.players[k].connected ==> |r.players[k].outbuf| <= 131)
  {
    var s' := s.(players := MapConnected(s.players, p => Delivered(p, line)));
    forall k: Slot
      ensures s'.players[k] == if s.players[k].connected then Delivered(s.players[k], line) else s.players[k]
    {
    }
    forall k: Slot | k != full
      ensures SamePlayer(s.players[k], s'.players[k]) && (s.players[k].connected ==> |s'.players[k].outbuf| <= 131)
    {
    }
    assert s'.players[full] == EMPTY_SLOT;
    hide MapConnected, Delivered, Enqueued;
    ConnectedSlots(s.players);
    ConnectedSlots(s'.players);
    RoundGoesOn(s', i, j, now);
    hide Reevaluate;
  }

  lemma TellLoser(s: Server, i: Slot)
    requires s.players[i].connected && |s.players[i].outbuf| <= 131
    ensures var r := LoserTold(s, i);
            && r == s.(players := r.players) && SamePlayer(s.players[i], r.players[i]) && |r.players[i].outbuf| <= 147
            && forall k: Slot :: k != i ==> r.players[k] == s.players[k]
  {
  }

  /** After the first fight the slot that could not be told about it is empty, and the others are as
      the fight left them. */
  ghost predicate FirstOver(t: Table, m: Server, full: Slot) {
    && m == Server(m.players, 5, 1, RoundActive, 0, 0, 0) && m.players[full] == EMPTY_SLOT
    && forall k: Slot :: k != full ==> SamePlayer(t[k], m.players[k]) && (t[k].connected ==> |m.players[k].outbuf| <= 147)
  }

  /** The slot still in play whose opponent is dropped. */
  ghost predicate DropsOne(c: char, d: char, full: Slot) {
    IsRps(c) && IsRps(d) && ((full == 2 && d == 'P') || (full == 3 && c == 'P'))
  }

  lemma FirstResult(c: char, d: char, full: Slot)
    requires DropsOne(c, d, full)
    ensures var ps := FloodedTable(c, d, full);
            var t := Fought(ps, FIRST);
            && Result(ps, FIRST) == 1
            && t[0] == ps[0].(x := 1.0, y := 0.0) && t[1] == Eliminated(ps[1]) && (forall k: Slot :: k > 1 ==> t[k] == ps[k])
            && IsAlive(t[0]) && t[0].choice == 'R' && t[1].connected && t[5 - full].choice == 'P' && IsAlive(t[5 - full])
            && ps[0].choice == 'R' && ps[2].choice == c && ps[3].choice == d
            && |ps[full].outbuf| == OUTBUF_SIZE - 2 && (forall k: Slot :: !t[k].waiting) && forall k: Slot :: k != full ==> ps[k].outbuf == ""
  {
    UnreadLength(455);
    hide Unread;
  }

  lemma FirstShowable(c: char, d: char, full: Slot)
    requires DropsOne(c, d, full)
    ensures var ps := FloodedTable(c, d, full);
            && AllPrintable(Fought(ps, FIRST)) && (forall k: Slot :: k < 4 ==> Showable(Fought(ps, FIRST)[k]))
  {
    var ps := FloodedTable(c, d, full);
    FloodedSound(c, d, full);
    FloodedSlots(c, d, full);
    RecordsPrintable(FloodedRound(c, d, full));
    hide Fought, FloodedTable, Records, IsName;
    assert forall k: Slot :: k < 4 ==> Printable(ps[k]);
    FoughtShowable(ps, FIRST);
  }

  lemma WonFight(s: Server, p: Pair, now: nat)
    requires InTable(p) && Result(s.players, p) == 1
    ensures var s1 := s.(players := Fought(s.players, p));
            PairResolved(s, p, now) == LoserTold(Broadcast(s1, FightLine(s1.players[p.a], s1.players[p.b], s1.players[p.a]), now), p.b)
  {
    hide Broadcast, LoserTold, FightLine, Fought, Result;
  }

  lemma FirstToldLoser(s1: Server, b: Server, full: Slot)
    requires s1 == Server(s1.players, 5, 1, RoundActive, 0, 0, 0) && full > 1 && s1.players[1].connected
    requires b == s1.(players := b.players) && b.players[full] == EMPTY_SLOT
    requires forall k: Slot :: k != full ==> SamePlayer(s1.players[k], b.players[k]) && (s1.players[k].connected ==> |b.players[k].outbuf| <= 131)
    ensures FirstOver(s1.players, LoserTold(b, 1), full)
  {
    assert SamePlayer(s1.players[1], b.players[1]);
    TellLoser(b, 1);
    var m := LoserTold(b, 1);
    SameTwice(s1.players[1], b.players[1], m.players[1]);
    hide LoserTold, SamePlayer;
  }

  lemma FirstFight(c: char, d: char, full: Slot, now: nat)
    requires DropsOne(c, d, full)
    ensures FirstOver(Fought(FloodedTable(c, d, full), FIRST), PairResolved(FloodedRound(c, d, full), FIRST, now), full)
  {
    var s := FloodedRound(c, d, full);
    var s1 := s.(players := Fought(s.players, FIRST));
    var a, b := s1.players[0], s1.players[1];
    FirstResult(c, d, full);
    FirstShowable(c, d, full);
    FoughtBuffers(s.players, FIRST);
    FightLinesShort(a, b, a);
    TextBefore(PairLine(a, b, a));
    WonFight(s, FIRST, now);
    assert 2 <= |FightLine(a, b, a)| <= 130;
    hide Fought, Result, FloodedTable, Broadcast, PairLine, CString, LoserTold, FightLine, Showable, AllPrintable, PairResolved, Eliminated;
    FloodedBroadcast(s1, FightLine(a, b, a), full, 0, 5 - full, now);
    FirstToldLoser(s1, Broadcast(s1, FightLine(a, b, a), now), full);
  }

  // ---------------------------------------------------------------- the second fight

  lemma SameShowable(p: Player, q: Player)
    requires SamePlayer(p, q)
    ensures IsAdmitted(q) == IsAdmitted(p) && Printable(q) == Printable(p) && Showable(q) == Showable(p)
    ensures q.connected == p.connected && q.waiting == p.waiting
  {
    hide OnBoard, IsName;
  }

  lemma FirstPrintable(t: Table, m: Server, full: Slot)
    requires FirstOver(t, m, full) && AllPrintable(t) && forall k: Slot :: k < 4 ==> Showable(t[k])
    requires forall k: Slot :: !t[k].waiting
    ensures AllPrintable(m.players) && NobodyWaits(m.players) && AllShowable(m.players, [SECOND]) && Roomy(m.players, ROUND_ROOM)
  {
    assert Showable(EMPTY_SLOT);
    forall k: Slot
      ensures IsAdmitted(m.players[k]) ==> Printable(m.players[k])
      ensures k < 4 ==> Showable(m.players[k])
      ensures !m.players[k].waiting && (m.players[k].connected ==> |m.players[k].outbuf| <= 147)
    {
      if k != full {
        assert SamePlayer(t[k], m.players[k]) && (IsAdmitted(t[k]) ==> Printable(t[k]));
        SameShowable(t[k], m.players[k]);
      }
      hide Printable, Showable, IsAdmitted, SamePlayer;
    }
    hide Printable, Showable, SamePlayer, FirstOver;
  }

  lemma SecondTaken(m: Server)
    requires AllPrintable(m.players) && AllShowable(m.players, [SECOND]) && Roomy(m.players, ROUND_ROOM) && m.roundNo == 1
    ensures RoundTaken(m, [SECOND], -1)
  {
    hide AllPrintable, AllShowable, Roomy, RoundTaken;
    RoomForRound(m, [SECOND], -1);
  }

  lemma {:induction false} NextResolved(s: Server, pairs: seq<Pair>, q: Pair, now: nat)
    requires AllInTable(pairs) && InTable(q)
    ensures AllInTable(pairs + [q])
    ensures PairsResolved(s, pairs + [q], now) == PairResolved(PairsResolved(s, pairs, now), q, now)
  {
    hide PairResolved;
    assert (pairs + [q])[..|pairs|] == pairs;
  }

  lemma TwoResolved(s: Server, p: Pair, q: Pair, now: nat)
    requires InTable(p) && InTable(q)
    ensures PairsResolved(s, [p, q], now) == PairsResolved(PairResolved(s, p, now), [q], now)
  {
    assert PairsResolved(s, [], now) == s && PairsResolved(PairResolved(s, p, now), [], now) == PairResolved(s, p, now);
    hide PairsResolved, PairResolved;
    assert [] + [p] == [p] && [] + [q] == [q] && [p] + [q] == [p, q];
    NextResolved(s, [], p, now);
    NextResolved(s, [p], q, now);
    NextResolved(PairResolved(s, p, now), [], q, now);
  }

  lemma TwoFights(s: Server, p: Pair, q: Pair, now: nat)
    requires InTable(p) && InTable(q)
    ensures RoundResolved(s, [p, q], -1, now) == RoundResolved(PairResolved(s, p, now), [q], -1, now)
  {
    TwoResolved(s, p, q, now);
    hide PairResolved, PairsResolved, Decide, BroadcastPositions;
  }

  lemma OnlyFight(ps: Table, p: Pair)
    requires InTable(p)
    ensures FoughtAll(ps, [p]) == Fought(ps, p)
  {
    assert [p][..0] == [] && FoughtAll(ps, []) == ps;
    hide Fought;
  }

  lemma LastFight(m: Server, p: Pair, now: nat)
    requires InTable(p) && RoundTaken(m, [p], -1) && NobodyWaits(m.players)
    ensures forall k: Slot :: EndsAs(Fought(m.players, p)[k], RoundResolved(m, [p], -1, now).players[k])
  {
    OnlyFight(m.players, p);
    hide Fought, RoundTaken, RoundResolved, DecidedState, LeftTable, FoughtAll, NobodyWaits;
    RoundLeaves(m, [p], -1, now);
    DecidedSlots(m, [p], now);
    hide EndsAs;
    EndsAsSame(Fought(m.players, p), DecidedState(m, LeftTable(m.players, [p]), now), RoundResolved(m, [p], -1, now));
  }

  /** The round ends with the fight of slots 2 and 3 on the table that the first fight left. */
  lemma SecondFight(c: char, d: char, full: Slot, now: nat) returns (m: Server)
    requires DropsOne(c, d, full)
    ensures FirstOver(Fought(FloodedTable(c, d, full), FIRST), m, full)
    ensures forall k: Slot :: EndsAs(Fought(m.players, SECOND)[k], RoundResolved(FloodedRound(c, d, full), [FIRST, SECOND], -1, now).players[k])
  {
    var s, t := FloodedRound(c, d, full), Fought(FloodedTable(c, d, full), FIRST);
    m := PairResolved(s, FIRST, now);
    FirstFight(c, d, full, now);
    FirstShowable(c, d, full);
    FirstResult(c, d, full);
    assert m.roundNo == 1;
    hide Fought, FloodedTable, FirstOver, PairResolved, Result, Showable, AllPrintable, RoundResolved, Roomy, AllShowable, EndsAs, RoundTaken, NobodyWaits;
    FirstPrintable(t, m, full);
    SecondTaken(m);
    TwoFights(s, FIRST, SECOND, now);
    LastFight(m, SECOND, now);
  }

  // ---------------------------------------------------------------- what remains

  /** The table that the first fight leaves: slot 0 and one slot of the second pair live. */
  ghost predicate OneDropped(t: Table, full: Slot) {
    && t[full] == EMPTY_SLOT && (full == 2 || full == 3)
    && IsAlive(t[5 - full]) && IsRps(t[5 - full].choice)
    && IsAlive(t[0]) && forall k: Slot :: k == 1 || k > 3 ==> !IsAlive(t[k])
  }

  lemma SameLife(p: Player, q: Player)
    requires SamePlayer(p, q)
    ensures IsAlive(q) == IsAlive(p) && q.choice == p.choice
  {
  }

  lemma FirstLeaves(c: char, d: char, full: Slot, m: Server)
    requires DropsOne(c, d, full) && FirstOver(Fought(FloodedTable(c, d, full), FIRST), m, full)
    ensures OneDropped(m.players, full)
  {
    var u := Fought(FloodedTable(c, d, full), FIRST);
    FirstResult(c, d, full);
    FloodedSlots(c, d, full);
    assert !Eliminated(u[1]).alive;
    assert !IsAlive(u[1]) && forall k: Slot :: k > 3 ==> !IsAlive(u[k]);
    hide Fought, FloodedTable, Eliminated, IsAlive;
    forall k: Slot | k != full
      ensures IsAlive(m.players[k]) == IsAlive(u[k]) && m.players[k].choice == u[k].choice
    {
      SameLife(u[k], m.players[k]);
    }
    hide SamePlayer;
  }

  lemma LivingSlots(t: Table, qs: Table, full: Slot)
    requires OneDropped(t, full) && forall k: Slot :: EndsAs(Fought(t, SECOND)[k], qs[k])
    ensures full == 2 ==> IsAlive(qs[3]) && qs[3].x == -1.0
    ensures full == 3 ==> qs[2].connected && Alive(qs) == {0}
  {
    EmptiedOpponent(t, SECOND);
    FoughtOthers(t, SECOND);
    assert !IsAlive(Eliminated(t[2])) && Eliminated(t[2]).connected == t[2].connected;
    var u := Fought(t, SECOND);
    assert u[3] == t[3].(x := t[2].x, y := t[2].y);
    hide Fought, Eliminated;
    assert IsAlive(u[3]) == IsAlive(t[3]) && u[3].x == t[2].x;
    assert forall k: Slot :: IsAlive(u[k]) <==> k == 0 || (k == 3 && full == 2);
    hide IsAlive;
    forall k: Slot
      ensures IsAlive(qs[k]) == IsAlive(u[k])
    {
      assert EndsAs(u[k], qs[k]);
    }
    assert EndsAs(u[3], qs[3]) && EndsAs(u[2], qs[2]);
  }

  lemma FoughtOthers(ps: Table, p: Pair)
    requires InTable(p)
    ensures forall k: Slot :: k != p.a && k != p.b ==> Fought(ps, p)[k] == ps[k]
  {
  }

  lemma OffBoard(s: Server, k: Slot)
    requires IsAlive(s.players[k]) && s.players[k].x == -1.0
    ensures !Records(s)
  {
    assert !PlayerOk(s.players[k], s.nextId);
  }

  /** A consistent round with everybody in it, and the pairs that `build_pairs` makes of it. */
  ghost predicate BeforeFights(s: Server, pairs: seq<Pair>) {
    && Sound(s) && s.phase == RoundActive && (forall k: Slot :: IsAlive(s.players[k]) ==> s.players[k].inRound)
    && Greedy(s.players, Eligible(s.players), pairs, [])
  }

  lemma FloodedBefore(c: char, d: char, full: Slot)
    requires IsRps(c) && IsRps(d)
    ensures BeforeFights(FloodedRound(c, d, full), [FIRST, SECOND])
  {
    FloodedSound(c, d, full);
    FloodedGreedy(c, d, full);
    hide FloodedTable, Sound, Greedy, Eligible;
  }

  /** The lower slot of the second pair is dropped when the first fight is announced. Its opponent is
      then alive off the board. */
  lemma LowerSlotDropped(now: nat)
    ensures var s := FloodedRound('R', 'P', 2);
            var r := RoundResolved(s, [FIRST, SECOND], -1, now);
            BeforeFights(s, [FIRST, SECOND]) && IsAlive(r.players[3]) && r.players[3].x == -1.0 && !Records(r)
  {
    FloodedBefore('R', 'P', 2);
    var m := SecondFight('R', 'P', 2, now);
    var r := RoundResolved(FloodedRound('R', 'P', 2), [FIRST, SECOND], -1, now);
    FirstLeaves('R', 'P', 2, m);
    hide RoundResolved, FloodedTable, Fought, EndsAs, BeforeFights, Records, FirstOver, OneDropped, IsAlive, Alive;
    LivingSlots(m.players, r.players, 2);
    OffBoard(r, 3);
  }

  lemma SecondIsWon(full: Slot)
    ensures Loser(FloodedTable('P', 'R', full), SECOND) == {3}
  {
    hide Unread;
  }

  /** Likewise when the higher slot is dropped. Its opponent, which would have won, is eliminated, and
      nobody is left to fight the winner of the first pair. */
  lemma HigherSlotDropped(now: nat)
    ensures var s := FloodedRound('P', 'R', 3);
            var r := RoundResolved(s, [FIRST, SECOND], -1, now);
            BeforeFights(s, [FIRST, SECOND]) && Loser(s.players, SECOND) == {3} && r.players[2].connected && Alive(r.players) == {0}
  {
    FloodedBefore('P', 'R', 3);
    SecondIsWon(3);
    var m := SecondFight('P', 'R', 3, now);
    var r := RoundResolved(FloodedRound('P', 'R', 3), [FIRST, SECOND], -1, now);
    FirstLeaves('P', 'R', 3, m);
    hide RoundResolved, FloodedTable, Fought, EndsAs, BeforeFights, Alive, FirstOver, OneDropped, Loser, IsAlive;
    LivingSlots(m.players, r.players, 3);
  }
}
