/** Constants and records shared by server and client (src/common.h), with the three
    lifecycle predicates of src/game.h.

    One `char` stands for one byte of text. Coordinates are exact reals. */
module Common {

  const MAX_PLAYERS := 32
  const MAX_NAME_LENGTH := 32
  const MAX_LINE := 256
  const INBUF_SIZE := 1024
  const OUTBUF_SIZE := 8192
  const GRID_W := 10
  const GRID_H := 10
  const JOIN_WINDOW_SECONDS := 60
  const SETUP_SECONDS := 20
  const ROUND_SECONDS := 5

  datatype Option<+T> = None | Some(value: T)

  datatype Phase = LobbyOpen | Setup | RoundActive | Repick | GameOver

  /** One slot of the server's fixed table. The socket and the receive buffer are not
      part of it: lines reach the server as events. */
  datatype Player = Player(
    id: int,
    connected: bool,
    registered: bool,
    admitted: bool,
    alive: bool,
    waiting: bool,
    inRound: bool,
    choiceChosen: bool,
    spawnChosen: bool,
    repickSubmitted: bool,
    repickChoice: char,
    name: string,
    choice: char,
    x: real,
    y: real,
    outbuf: string)

  /** What `drop_player` leaves in a slot. */
  const EMPTY_SLOT := Player(0, false, false, false, false, false, false, false, false, false,
                             '\0', "", '\0', -1.0, -1.0, "")

  /** A slot of a new server, all zero. */
  const UNUSED_SLOT := EMPTY_SLOT.(x := 0.0, y := 0.0)

  type Slot = i: int | 0 <= i < MAX_PLAYERS

  type Table = ps: seq<Player> | |ps| == MAX_PLAYERS witness seq(MAX_PLAYERS, _ => EMPTY_SLOT)

  datatype Server = Server(
    players: Table,
    nextId: int,
    roundNo: int,
    phase: Phase,
    joinDeadline: int,
    setupDeadline: int,
    roundDeadline: int)

  predicate IsRegistered(p: Player) { p.connected && p.registered }

  predicate IsAdmitted(p: Player) { p.connected && p.registered && p.admitted }

  predicate IsAlive(p: Player) { p.connected && p.registered && p.admitted && p.alive }

  /** Admitted and still counted as a winner when the match ends. */
  predicate IsWinner(p: Player) { IsAdmitted(p) && (p.alive || p.waiting) }

  predicate IsRps(c: char) { c == 'R' || c == 'P' || c == 'S' }

  predicate IsSpace(c: char) {
    c == ' ' || c == '\t' || c == '\n' || c == '\r' || c == '\U{000B}' || c == '\U{000C}'
  }

  /** What `sscanf("%31s")` can yield: a token of one to 31 bytes. */
  predicate IsName(name: string) {
    && 0 < |name| < MAX_NAME_LENGTH
    && forall k :: 0 <= k < |name| ==> !IsSpace(name[k]) && name[k] != '\0'
  }

  type Name = s: string | IsName(s) witness "x"

  predicate InBox(x: real, y: real) {
    0.0 <= x < GRID_W as real && 0.0 <= y < GRID_H as real
  }

  function CountIf(ps: seq<Player>, f: Player -> bool): nat {
    if ps == [] then 0 else CountIf(ps[..|ps| - 1], f) + if f(ps[|ps| - 1]) then 1 else 0
  }

  lemma {:induction false} CountZeroIff(ps: seq<Player>, f: Player -> bool)
    ensures CountIf(ps, f) == 0 <==> forall k :: 0 <= k < |ps| ==> !f(ps[k])
  {
    if ps != [] {
      var q := ps[..|ps| - 1];
      CountZeroIff(q, f);
      assert forall k :: 0 <= k < |q| ==> q[k] == ps[k];
    }
  }

  /** A count below two names at most one slot. */
  lemma {:induction false} CountAtMostOne(ps: seq<Player>, f: Player -> bool)
    ensures CountIf(ps, f) <= 1 <==> forall i, j :: 0 <= i < j < |ps| ==> !(f(ps[i]) && f(ps[j]))
  {
    if ps != [] {
      var q := ps[..|ps| - 1];
      CountAtMostOne(q, f);
      CountZeroIff(q, f);
      assert forall k :: 0 <= k < |q| ==> q[k] == ps[k];
      if CountIf(q, f) != 0 && f(ps[|ps| - 1]) {
        var k :| 0 <= k < |q| && f(q[k]);
        assert f(ps[k]) && f(ps[|ps| - 1]);
      }
    }
  }

  lemma CountNext(ps: seq<Player>, f: Player -> bool, n: nat)
    requires n < |ps|
    ensures CountIf(ps[..n + 1], f) == CountIf(ps[..n], f) + if f(ps[n]) then 1 else 0
  {
    assert ps[..n + 1][..n] == ps[..n];
  }
}
