/** From the server's table to the client's: a snapshot, sent as lines, framed into bytes, cut up
    on the way, popped and parsed, leaves exactly the admitted players in the client's table. */
module SnapshotRoundTrip {
  import opened Common
  import opened Text
  import opened Transport
  import opened ServerState
  import opened ServerInvariant
  import opened Client

  /** A player as the client is to see it: coordinates rounded to thousandths. */
  function Shown(p: Player): ClientPlayer {
    ClientPlayer(true, p.name, if p.choiceChosen then p.choice else '?', Thousandths(p.x) as real / 1000.0, Thousandths(p.y) as real / 1000.0,
                 if p.alive then 1 else 0, if p.waiting then 1 else 0)
  }

  function ShownPlayers(ps: seq<Player>): (r: seq<ClientPlayer>)
    ensures |r| <= |ps|
  {
    if ps == [] then [] else
      ShownPlayers(ps[..|ps| - 1]) + if IsAdmitted(ps[|ps| - 1]) then [Shown(ps[|ps| - 1])] else []
  }

  /** The client's table that shows the admitted players of `ps` in slot order, and nobody else. */
  function ShownTable(ps: seq<Player>): ClientTable
    requires |ps| <= MAX_PLAYERS
  {
    var shown := ShownPlayers(ps);
    shown + seq(MAX_PLAYERS - |shown|, _ => NO_PLAYER)
  }

  lemma {:induction false} LinesHandledConcat(ps: ClientTable, a: seq<string>, b: seq<string>)
    ensures LinesHandled(ps, a + b) == LinesHandled(LinesHandled(ps, a), b)
    decreases |b|
  {
    hide LineHandled;
    if b == [] {
      assert a + b == a;
    } else {
      assert (a + b)[..|a + b| - 1] == a + b[..|b| - 1];
      LinesHandledConcat(ps, a, b[..|b| - 1]);
    }
  }

  // ---------------------------------------------------------------- dispatch

  lemma ParserAfter(entries: seq<Entry>, n: nat, line: string)
    requires n <= |entries| && forall k :: 0 <= k < n ==> !LineMatches(entries[k], line)
    ensures ParserFor(entries, line) == ParserFor(entries[n..], line)
  {
    if n > 0 {
      ParserAfter(entries[1..], n - 1, line);
      assert entries[1..][n - 1..] == entries[n..];
    } else {
      assert entries[0..] == entries;
    }
  }

  /** Every token begins with two letters that a line has to begin with to match it. */
  predicate Begins(s: string, a: char, b: char) { |s| >= 2 && s[0] == a && s[1] == b }

  lemma MatchBegins(entry: Entry, line: string, a: char, b: char)
    requires Begins(line, a, b) && |entry.token| >= 2 && LineMatches(entry, line)
    ensures Begins(entry.token, a, b)
  {
    if !entry.exact {
      assert line[..|entry.token|][0] == line[0] && line[..|entry.token|][1] == line[1];
    }
  }

  lemma GeneralTokens(k: nat)
    requires k < 16
    ensures |DISPATCH[k].token| >= 2 && !Begins(DISPATCH[k].token, 'S', 'T')
    ensures !Begins(DISPATCH[k].token, 'P', 'L') && !Begins(DISPATCH[k].token, 'P', 'A')
  {
  }

  lemma SnapshotTokens()
    ensures |DISPATCH| == 25
    ensures DISPATCH[16] == Entry("STATE_BEGIN", true, Snapshot) && DISPATCH[17] == Entry("STATE_END", true, Snapshot)
    ensures DISPATCH[18] == Entry("PLAYER ", false, Snapshot)
  {
  }

  lemma SkipGeneral(line: string)
    requires Begins(line, 'P', 'L') || Begins(line, 'P', 'A') || Begins(line, 'S', 'T')
    ensures ParserFor(DISPATCH, line) == ParserFor(DISPATCH[16..], line)
  {
    hide LineMatches, Begins, ParserFor;
    SnapshotTokens();
    forall k | 0 <= k < 16
      ensures !LineMatches(DISPATCH[k], line)
    {
      GeneralTokens(k);
      if LineMatches(DISPATCH[k], line) {
        if Begins(line, 'P', 'L') {
          MatchBegins(DISPATCH[k], line, 'P', 'L');
        } else if Begins(line, 'P', 'A') {
          MatchBegins(DISPATCH[k], line, 'P', 'A');
        } else {
          MatchBegins(DISPATCH[k], line, 'S', 'T');
        }
      }
    }
    ParserAfter(DISPATCH, 16, line);
  }

  lemma ParserForThird(entries: seq<Entry>, line: string)
    requires |entries| >= 3 && !LineMatches(entries[0], line) && !LineMatches(entries[1], line)
    ensures ParserFor(entries, line) == if LineMatches(entries[2], line) then Some(entries[2].parser)
                                        else ParserFor(entries[3..], line)
  {
    hide LineMatches;
    ParserAfter(entries, 2, line);
    assert entries[2..][0] == entries[2] && entries[2..][1..] == entries[3..];
  }

  lemma PlayerLineDispatch(line: string)
    requires StartsWith(line, "PLAYER ") && Begins(line, 'P', 'L') && line != "STATE_BEGIN" && line != "STATE_END"
    ensures ParserFor(DISPATCH, line) == Some(Snapshot)
  {
    hide StartsWith, ParserFor, Begins;
    SkipGeneral(line);
    SnapshotTokens();
    ParserForThird(DISPATCH[16..], line);
  }

  lemma ParserForFirst(entries: seq<Entry>, line: string)
    requires entries != [] && LineMatches(entries[0], line)
    ensures ParserFor(entries, line) == Some(entries[0].parser)
  {
  }

  lemma BeginDispatch()
    ensures ParserFor(DISPATCH, "STATE_BEGIN") == Some(Snapshot)
  {
    hide ParserFor;
    SkipGeneral("STATE_BEGIN");
    SnapshotTokens();
    ParserForFirst(DISPATCH[16..], "STATE_BEGIN");
  }

  /** How the lines of a snapshot begin that are not about a player. */
  predicate BeginsLikeHeader(line: string) {
    Begins(line, 'L', 'O') || Begins(line, 'S', 'E') || Begins(line, 'R', 'O') || Begins(line, 'R', 'E')
    || Begins(line, 'G', 'A')
  }

  lemma PrefixBegins(line: string, prefix: string)
    requires |prefix| >= 2
    ensures StartsWith(line, prefix) ==> Begins(line, prefix[0], prefix[1])
  {
    if StartsWith(line, prefix) {
      assert line[..|prefix|][0] == line[0] && line[..|prefix|][1] == line[1];
    }
  }

  lemma HeaderKind(line: string)
    requires BeginsLikeHeader(line) || line == "STATE_END"
    ensures line != "STATE_BEGIN" && line != "MATCH_RESET"
    ensures !StartsWith(line, "PLAYER") && !StartsWith(line, "LEFT") && !StartsWith(line, "PAIR")
  {
    PrefixBegins(line, "PLAYER");
    PrefixBegins(line, "PAIR");
    PrefixBegins(line, "LEFT");
  }

  /** Whatever it is dispatched to, a line of another kind leaves the table alone. */
  lemma OtherLineIgnored(ps: ClientTable, line: string)
    requires BeginsLikeHeader(line) || line == "STATE_END"
    ensures LineHandled(ps, line) == ps
  {
    HeaderKind(line);
    hide ParserFor, BeginsLikeHeader;
  }

  lemma HeadersBegin(s: Server, dst: Player, now: nat, k: nat)
    requires k < |HeaderLines(s, dst, now)|
    ensures BeginsLikeHeader(HeaderLines(s, dst, now)[k])
  {
    hide Decimal;
  }

  lemma {:induction false} HeadersIgnored(s: Server, dst: Player, now: nat, ps: ClientTable, n: nat)
    requires n <= |HeaderLines(s, dst, now)|
    ensures LinesHandled(ps, HeaderLines(s, dst, now)[..n]) == ps
  {
    hide LineHandled, HeaderLines, BeginsLikeHeader;
    if n > 0 {
      var lines := HeaderLines(s, dst, now);
      HeadersIgnored(s, dst, now, ps, n - 1);
      HeadersBegin(s, dst, now, n - 1);
      OtherLineIgnored(ps, lines[n - 1]);
      assert lines[..n][..n - 1] == lines[..n - 1];
    }
  }

  // ---------------------------------------------------------------- players

  lemma ShownName(p: Player)
    ensures Shown(p).used && Shown(p).name == p.name
  {
  }

  lemma {:induction false} ShownNames(ps: seq<Player>, name: string)
    requires forall k :: 0 <= k < |ps| && IsAdmitted(ps[k]) ==> ps[k].name != name
    ensures forall k :: 0 <= k < |ShownPlayers(ps)| ==> ShownPlayers(ps)[k].used && ShownPlayers(ps)[k].name != name
  {
    if ps != [] {
      var before := ps[..|ps| - 1];
      assert forall k :: 0 <= k < |before| ==> before[k] == ps[k];
      ShownNames(before, name);
      var last := ps[|ps| - 1];
      ShownName(last);
      hide Shown;
      assert ShownPlayers(ps) == ShownPlayers(before) + if IsAdmitted(last) then [Shown(last)] else [];
    }
  }

  /** A report about a new player goes to the first free slot of a packed table. */
  lemma ReportedAppends(ps: seq<Player>, p: Player, report: PlayerReport)
    requires |ps| < MAX_PLAYERS && report.name == p.name
    requires forall k :: 0 <= k < |ps| && IsAdmitted(ps[k]) ==> ps[k].name != p.name
    requires EntryOf(report) == Shown(p)
    ensures var shown := ShownPlayers(ps);
            Reported(ShownTable(ps), report) == shown + [Shown(p)] + seq(MAX_PLAYERS - |shown| - 1, _ => NO_PLAYER)
  {
    ShownNames(ps, p.name);
    var shown := ShownPlayers(ps);
    var table := ShownTable(ps);
    assert forall k :: 0 <= k < |shown| ==> table[k] == shown[k];
    assert forall k :: |shown| <= k < MAX_PLAYERS ==> table[k] == NO_PLAYER;
    assert forall k :: 0 <= k < |shown| ==> shown[k].used && shown[k].name != p.name;
    hide Shown;
    PackedTable(table, |shown|, p.name);
  }

  lemma PackedTable(table: ClientTable, n: nat, name: string)
    requires n <= MAX_PLAYERS
    requires forall k :: 0 <= k < n ==> table[k].used && table[k].name != name
    requires forall k :: n <= k < MAX_PLAYERS ==> !table[k].used
    ensures FindPlayer(table, name) == MAX_PLAYERS && FirstUnused(table) == n
  {
    if n < MAX_PLAYERS {
      assert !table[n].used;
    }
  }

  lemma PlayerLineBegins(p: Player)
    ensures StartsWith(PlayerLine(p), "PLAYER ") && Begins(PlayerLine(p), 'P', 'L')
    ensures PlayerLine(p) != "STATE_BEGIN" && PlayerLine(p) != "STATE_END"
  {
    hide Fixed3, Bit;
    assert PlayerLine(p)[..7] == "PLAYER ";
    assert PlayerLine(p)[0] == 'P';
  }

  lemma LineGoesToSnapshot(ps: ClientTable, line: string)
    requires ParserFor(DISPATCH, line) == Some(Snapshot)
    requires line != "STATE_BEGIN" && line != "STATE_END" && ScanPlayer(line).Some?
    ensures LineHandled(ps, line) == Reported(ps, ScanPlayer(line).value)
  {
    hide ParserFor, ScanPlayer, Reported;
  }

  /** The entry a report makes. */
  function EntryOf(report: PlayerReport): ClientPlayer {
    ClientPlayer(true, report.name, report.choice, report.x, report.y, report.alive, report.waiting)
  }

  lemma ScannedAsShown(p: Player, nextId: int)
    requires IsAdmitted(p) && PlayerOk(p, nextId)
    ensures var report := ScanPlayer(PlayerLine(p));
            report.Some? && report.value.name == p.name && EntryOf(report.value) == Shown(p)
  {
    hide ScanPlayer, PlayerLine, Thousandths;
    ScanPlayerPrinted(p);
  }

  lemma PlayerLineShown(ps: seq<Player>, p: Player, nextId: int)
    requires |ps| < MAX_PLAYERS && IsAdmitted(p) && PlayerOk(p, nextId)
    requires forall k :: 0 <= k < |ps| && IsAdmitted(ps[k]) ==> ps[k].name != p.name
    ensures LineHandled(ShownTable(ps), PlayerLine(p)) == ShownTable(ps + [p])
  {
    hide LineHandled, ShownTable, Reported, ScanPlayer, PlayerLine, ParserFor, PlayerOk, Begins, StartsWith, Shown;
    var line := PlayerLine(p);
    ScannedAsShown(p, nextId);
    PlayerLineBegins(p);
    PlayerLineDispatch(line);
    LineGoesToSnapshot(ShownTable(ps), line);
    ReportedAppends(ps, p, ScanPlayer(line).value);
    ShownTableNext(ps, p);
  }

  lemma ShownTableNext(ps: seq<Player>, p: Player)
    requires |ps| < MAX_PLAYERS
    ensures var shown := ShownPlayers(ps);
            ShownTable(ps + [p]) == if IsAdmitted(p) then shown + [Shown(p)] + seq(MAX_PLAYERS - |shown| - 1, _ => NO_PLAYER)
                                    else ShownTable(ps)
  {
    assert (ps + [p])[..|ps|] == ps;
  }

  lemma {:induction false} PlayersShown(ps: seq<Player>, nextId: int)
    requires |ps| <= MAX_PLAYERS && Distinct(ps)
    requires forall k :: 0 <= k < |ps| && ps[k].connected ==> PlayerOk(ps[k], nextId)
    ensures LinesHandled(ClearedTable(), PlayerLines(ps)) == ShownTable(ps)
  {
    hide LineHandled, PlayerOk;
    if ps != [] {
      var n := |ps| - 1;
      var before := ps[..n];
      PlayersShown(before, nextId);
      assert before + [ps[n]] == ps;
      hide ShownTable;
      ShownTableNext(before, ps[n]);
      if IsAdmitted(ps[n]) {
        PlayerLineShown(before, ps[n], nextId);
        assert PlayerLines(ps)[..|PlayerLines(before)|] == PlayerLines(before);
      } else {
        assert PlayerLines(ps) == PlayerLines(before);
      }
    }
  }

  /** Whatever the client's table was, the lines of one snapshot leave in it exactly the admitted
      players, in slot order, with their name, choice and flags and their coordinates rounded to
      thousandths. */
  lemma SnapshotShown(s: Server, dst: Player, now: nat, ps: ClientTable)
    requires Records(s)
    ensures LinesHandled(ps, SnapshotLines(s, dst, now)) == ShownTable(s.players)
  {
    hide LineHandled, LinesHandled, HeaderLines, PlayerLines, ShownTable, PlayerOk;
    var header, players := HeaderLines(s, dst, now), PlayerLines(s.players);
    LinesHandledConcat(ps, ["STATE_BEGIN"], header + (players + ["STATE_END"]));
    BeginHandled(ps);
    LinesHandledConcat(ClearedTable(), header, players + ["STATE_END"]);
    HeadersIgnored(s, dst, now, ClearedTable(), |header|);
    assert header[..|header|] == header;
    LinesHandledConcat(ClearedTable(), players, ["STATE_END"]);
    PlayersShown(s.players, s.nextId);
    EndHandled(ShownTable(s.players));
  }

  lemma BeginHandled(ps: ClientTable)
    ensures LinesHandled(ps, ["STATE_BEGIN"]) == ClearedTable()
  {
    BeginDispatch();
    hide ParserFor;
    var lines := ["STATE_BEGIN"];
    assert lines[..0] == [];
  }

  lemma EndHandled(ps: ClientTable)
    ensures LinesHandled(ps, ["STATE_END"]) == ps
  {
    OtherLineIgnored(ps, "STATE_END");
    hide LineHandled;
    var lines := ["STATE_END"];
    assert lines[..0] == [];
  }

  /** End to end. Take any run of a connection on which lines were queued and bytes moved in any
      portions, the last lines queued being a snapshot. Once nothing is pending or under way, a
      client that handled every line it popped shows exactly the admitted players, whatever came
      before. */
  lemma SnapshotEndToEnd(
      s: Server, dst: Player, now: nat, events: seq<LinkEvent>, before: seq<string>, start: ClientTable)
    requires Records(s)
    requires forall k :: 0 <= k < |events| ==> QueuesLines(events[k])
    requires var l := LinkRun(NEW_LINK, events);
             l.queued == before + SnapshotLines(s, dst, now) && l.outbuf == "" && l.wire == ""
    ensures LinesHandled(start, LinkRun(NEW_LINK, events).delivered) == ShownTable(s.players)
  {
    FramingEndToEnd(events);
    LinesHandledConcat(start, before, SnapshotLines(s, dst, now));
    SnapshotShown(s, dst, now, LinesHandled(start, before));
  }
}
