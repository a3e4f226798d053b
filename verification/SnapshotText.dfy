/** The text of a state snapshot: its lines survive the framing, and it is short. */
module SnapshotText {
  import opened Common
  import opened Text
  import opened Protocol
  import opened ServerState
  import opened ServerInvariant

  /** No byte that the framing, or C, treats specially. */
  ghost predicate Plain(s: string) {
    forall k :: 0 <= k < |s| ==> s[k] != '\n' && s[k] != '\r' && s[k] != '\0'
  }

  lemma PlainConcat(a: string, b: string)
    requires Plain(a) && Plain(b)
    ensures Plain(a + b)
  {
  }

  function Pow10(k: nat): nat { if k == 0 then 1 else 10 * Pow10(k - 1) }

  lemma {:induction false} DigitsShort(n: nat, k: nat)
    requires k >= 1 && n < Pow10(k)
    ensures |Digits(n)| <= k && Plain(Digits(n))
  {
    if n >= 10 {
      DigitsShort(n / 10, k - 1);
      PlainConcat(Digits(n / 10), [Digit(n % 10)]);
    }
  }

  lemma {:induction false} DigitsPlain(n: nat)
    ensures Plain(Digits(n))
  {
    if n >= 10 {
      DigitsPlain(n / 10);
      PlainConcat(Digits(n / 10), [Digit(n % 10)]);
    }
  }

  lemma DecimalPlain(n: int)
    ensures Plain(Decimal(n))
  {
    if n < 0 {
      DigitsPlain(-n);
      PlainConcat("-", Digits(-n));
    } else {
      DigitsPlain(n);
    }
  }

  /** A number that fits an unsigned machine word of 64 bits. */
  predicate IsWord(n: int) { 0 <= n < 0x1_0000_0000_0000_0000 }

  lemma DecimalShort(n: int)
    requires IsWord(n)
    ensures |Decimal(n)| <= 20 && Plain(Decimal(n))
  {
    PowersOfTen();
    DigitsShort(n, 20);
  }

  lemma PowersOfTen()
    ensures Pow10(20) == 100_000_000_000_000_000_000
  {
    assert Pow10(4) == 10_000 by { assert Pow10(2) == 100; }
    assert Pow10(8) == 100_000_000 by { assert Pow10(6) == 1_000_000; }
    assert Pow10(12) == 1_000_000_000_000 by { assert Pow10(10) == 10_000_000_000; }
    assert Pow10(16) == 10_000_000_000_000_000 by { assert Pow10(14) == 100_000_000_000_000; }
    assert Pow10(18) == 1_000_000_000_000_000_000;
  }

  /** A coordinate of the board, or of the place beside it. */
  predicate OnBoard(v: real) { v == -1.0 || 0.0 <= v < 10.0 }

  /** What the text of lines about a player depends on. */
  predicate Printable(p: Player) {
    IsName(p.name) && OnBoard(p.x) && OnBoard(p.y) && (p.choiceChosen ==> IsRps(p.choice))
  }

  ghost predicate AllPrintable(ps: seq<Player>) {
    forall k :: 0 <= k < |ps| && IsAdmitted(ps[k]) ==> Printable(ps[k])
  }

  lemma RecordsPrintable(s: Server)
    requires Records(s)
    ensures AllPrintable(s.players)
  {
    forall k | 0 <= k < MAX_PLAYERS && IsAdmitted(s.players[k])
      ensures Printable(s.players[k])
    {
      assert PlayerOk(s.players[k], s.nextId);
    }
  }

  lemma Fixed3Short(v: real)
    requires OnBoard(v)
    ensures |Fixed3(v)| <= 6 && Plain(Fixed3(v))
  {
    var m := Magnitude(Thousandths(v));
    assert 0.0 <= v ==> 0 <= Thousandths(v) <= 10_000;
    assert v == -1.0 ==> Thousandths(v) == -1000;
    var hundreds := m / 10 / 10;
    assert Pow10(1) == 10 && Pow10(2) == 100;
    DigitsShort(hundreds / 10, if v < 0.0 then 1 else 2);
  }

  /** A column of a line: a separator and a text, before the rest. */
  lemma Column(text: string, rest: string)
    requires Plain(text) && Plain(rest)
    ensures Plain(" " + (text + rest)) && |" " + (text + rest)| == 1 + |text| + |rest|
  {
  }

  lemma PlayerLineShort(p: Player)
    requires Printable(p)
    ensures |PlayerLine(p)| <= 58 && Plain(PlayerLine(p))
  {
    Fixed3Short(p.x);
    Fixed3Short(p.y);
    NamePlain(p.name);
    assert Plain(Bit(p.alive)) && Plain(Bit(p.waiting)) && Plain([ShownChoice(p)]);
    hide Fixed3, Plain;
    var t4 := " " + Bit(p.waiting);
    assert Plain(t4) by { BitColumn(p.waiting); }
    Column(Bit(p.alive), t4);
    var t3 := " " + (Bit(p.alive) + t4);
    Column(Fixed3(p.y), t3);
    var t2 := " " + (Fixed3(p.y) + t3);
    Column(Fixed3(p.x), t2);
    var t1 := " " + (Fixed3(p.x) + t2);
    Column([ShownChoice(p)], t1);
    PlainConcat(p.name, " " + ([ShownChoice(p)] + t1));
    PlayerWordPlain();
    PlainConcat("PLAYER ", p.name + (" " + ([ShownChoice(p)] + t1)));
  }

  lemma BitColumn(b: bool)
    ensures Plain(" " + Bit(b))
  {
  }

  lemma PlayerWordPlain()
    ensures Plain("PLAYER ")
  {
  }

  lemma NamePlain(name: string)
    requires IsName(name)
    ensures Plain(name) && |name| <= 31
  {
  }

  lemma {:induction false} FramedConcat(a: seq<string>, b: seq<string>)
    ensures Framed(a + b) == Framed(a) + Framed(b)
  {
    if a == [] {
      assert a + b == b;
    } else {
      assert (a + b)[1..] == a[1..] + b;
      FramedConcat(a[1..], b);
    }
  }

  ghost predicate AllLines(lines: seq<string>) {
    forall k :: 0 <= k < |lines| ==> IsLine(lines[k])
  }

  lemma {:induction false} PlayerLinesShort(ps: seq<Player>)
    requires AllPrintable(ps)
    ensures |Framed(PlayerLines(ps))| <= 59 * |ps| && AllLines(PlayerLines(ps))
  {
    hide Framed, PlayerLine, Printable;
    if ps == [] {
      assert Framed([]) == "" by { FramedNothing(); }
    } else {
      var last := ps[|ps| - 1];
      assert forall k :: 0 <= k < |ps| - 1 ==> ps[..|ps| - 1][k] == ps[k];
      PlayerLinesShort(ps[..|ps| - 1]);
      if IsAdmitted(last) {
        PlayerLineShort(last);
        FramedAppend(PlayerLines(ps[..|ps| - 1]), PlayerLine(last));
      } else {
        assert PlayerLines(ps[..|ps| - 1]) + [] == PlayerLines(ps[..|ps| - 1]);
      }
    }
  }

  lemma FramedNothing()
    ensures Framed([]) == ""
  {
  }

  lemma FramedOne(a: string)
    ensures Framed([a]) == Frame(a)
  {
  }

  /** Plain texts of bounded length are lines, and their framing is bounded. */
  lemma {:induction false} FramedBound(lines: seq<string>, n: nat)
    requires n < MAX_LINE - 2 && forall k :: 0 <= k < |lines| ==> Plain(lines[k]) && |lines[k]| <= n
    ensures AllLines(lines) && |Framed(lines)| <= (n + 1) * |lines|
  {
    if lines != [] {
      FramedBound(lines[1..], n);
      assert (n + 1) * |lines| == (n + 1) + (n + 1) * |lines[1..]|;
    }
  }

  /** The round number and the seconds left to each deadline are machine words. */
  predicate InRange(s: Server, now: nat) {
    && IsWord(s.roundNo)
    && IsWord(SecondsLeft(s.joinDeadline, now))
    && IsWord(SecondsLeft(s.setupDeadline, now))
    && IsWord(SecondsLeft(s.roundDeadline, now))
  }

  ghost predicate IsHeader(line: string) { Plain(line) && |line| <= 53 }

  lemma NumberedHeaders(n: int)
    requires IsWord(n)
    ensures IsHeader(LobbyOpenLine(n)) && IsHeader(SetupOpenLine(n))
  {
    DecimalShort(n);
    hide Decimal;
  }

  lemma RoundHeader(roundNo: int, n: int)
    requires IsWord(roundNo) && IsWord(n)
    ensures IsHeader(RoundStartLine(roundNo, n))
  {
    DecimalShort(roundNo);
    DecimalShort(n);
    hide Decimal;
    PlainConcat(" ", Decimal(n));
    PlainConcat(Decimal(roundNo), " " + Decimal(n));
  }

  lemma FixedHeaders()
    ensures IsHeader("LOBBY_WAITING") && IsHeader("LOBBY_CLOSED") && IsHeader("REPICK_START")
    ensures IsHeader("GAME_OVER WIN") && IsHeader("GAME_OVER LOSE") && IsHeader("GAME_OVER")
  {
  }

  lemma HeadersOfPhase(s: Server, dst: Player, now: nat)
    requires InRange(s, now)
    ensures var lines := HeaderLines(s, dst, now);
            |lines| <= 2 && forall k :: 0 <= k < |lines| ==> IsHeader(lines[k])
  {
    hide IsHeader, LobbyOpenLine, SetupOpenLine, RoundStartLine, SecondsLeft;
    FixedHeaders();
    match s.phase
    case LobbyOpen => NumberedHeaders(SecondsLeft(s.joinDeadline, now));
    case Setup => NumberedHeaders(SecondsLeft(s.setupDeadline, now));
    case RoundActive => RoundHeader(s.roundNo, SecondsLeft(s.roundDeadline, now));
    case Repick =>
    case GameOver =>
  }

  lemma HeaderShort(s: Server, dst: Player, now: nat)
    requires InRange(s, now)
    ensures |Framed(HeaderLines(s, dst, now))| <= 108 && AllLines(HeaderLines(s, dst, now))
  {
    hide HeaderLines, Framed;
    HeadersOfPhase(s, dst, now);
    FramedBound(HeaderLines(s, dst, now), 53);
  }

  const SNAPSHOT_LIMIT := 2048

  /** Every snapshot of a consistent state is made of lines that the framing carries unaltered,
      and takes fewer than 2048 bytes. */
  lemma SnapshotIsShort(s: Server, dst: Player, now: nat)
    requires Records(s) && InRange(s, now)
    ensures var lines := SnapshotLines(s, dst, now);
            |Framed(lines)| < SNAPSHOT_LIMIT && AllLines(lines)
  {
    HeaderShort(s, dst, now);
    RecordsPrintable(s);
    PlayerLinesShort(s.players);
    hide HeaderLines, PlayerLines, Framed, Records, InRange;
    var header, players := HeaderLines(s, dst, now), PlayerLines(s.players);
    FramedConcat(["STATE_BEGIN"], header + (players + ["STATE_END"]));
    FramedConcat(header, players + ["STATE_END"]);
    FramedConcat(players, ["STATE_END"]);
    FramedOne("STATE_BEGIN");
    FramedOne("STATE_END");
  }

  /** A snapshot is refused only when the output pending before it leaves less than its room. */
  lemma SnapshotRefusedIff(s: Server, dst: Player, now: nat, pending: string)
    requires Records(s) && InRange(s, now)
    ensures var lines := SnapshotLines(s, dst, now);
            && (EnqueuedAll(pending, lines).None? <==> |pending| + |Framed(lines)| > OUTBUF_SIZE)
            && (|pending| <= OUTBUF_SIZE - SNAPSHOT_LIMIT ==>
                  EnqueuedAll(pending, lines) == Some(pending + Framed(lines)))
  {
    SnapshotIsShort(s, dst, now);
    var lines := SnapshotLines(s, dst, now);
    hide SnapshotLines, Records, InRange;
    assert forall k :: 0 <= k < |lines| ==> |lines[k]| < MAX_LINE - 2;
    EnqueuedAllAppends(pending, lines);
    if lines == [] {
      FramedNothing();
    }
  }

  lemma AllLinesConcat(a: seq<string>, b: seq<string>)
    requires AllLines(a) && AllLines(b)
    ensures AllLines(a + b)
  {
  }

  /** Four snapshots, of whatever states and to whatever players, always fit an empty buffer. */
  lemma FourSnapshotsFit(s1: Server, d1: Player, s2: Server, d2: Player, s3: Server, d3: Player, s4: Server, d4: Player, now: nat)
    requires Records(s1) && InRange(s1, now) && Records(s2) && InRange(s2, now)
    requires Records(s3) && InRange(s3, now) && Records(s4) && InRange(s4, now)
    ensures var a, b := SnapshotLines(s1, d1, now), SnapshotLines(s2, d2, now);
            var c, d := SnapshotLines(s3, d3, now), SnapshotLines(s4, d4, now);
            EnqueuedAll("", a + b + c + d) == Some(Framed(a + b + c + d))
  {
    SnapshotIsShort(s1, d1, now);
    SnapshotIsShort(s2, d2, now);
    SnapshotIsShort(s3, d3, now);
    SnapshotIsShort(s4, d4, now);
    hide SnapshotLines, Records, InRange, Framed, EnqueuedAll;
    var a, b := SnapshotLines(s1, d1, now), SnapshotLines(s2, d2, now);
    var c, d := SnapshotLines(s3, d3, now), SnapshotLines(s4, d4, now);
    FramedConcat(a, b);
    FramedConcat(a + b, c);
    FramedConcat(a + b + c, d);
    var all := a + b + c + d;
    AllLinesConcat(a, b);
    AllLinesConcat(a + b, c);
    AllLinesConcat(a + b + c, d);
    EnqueuedAllAppends("", all);
    assert "" + Framed(all) == Framed(all);
  }
}
