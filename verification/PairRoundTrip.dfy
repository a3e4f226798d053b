/** From a fight on the server to the client's table: a client that shows the table before the
    fight and handles its PAIR line shows the table after it. */
module PairRoundTrip {
  import opened Common
  import opened Text
  import opened Pairing
  import opened Elimination
  import opened ServerInvariant
  import opened SnapshotText
  import opened Client
  import opened SnapshotRoundTrip

  // ---------------------------------------------------------------- the text

  lemma ScanTokenPrinted(name: string, rest: string)
    requires IsName(name) && rest != "" && IsSpace(rest[0])
    ensures ScanToken(" " + (name + rest)) == Some((name, rest))
  {
    SkipOneSpace(name + rest);
    TokenLengthOf(name, rest, MAX_NAME_LENGTH - 1);
    assert (name + rest)[..|name|] == name;
    assert (name + rest)[|name|..] == rest;
  }

  lemma ScanCharPrinted(c: char, rest: string)
    requires !IsSpace(c)
    ensures ScanChar(" " + ([c] + rest)) == Some((c, rest))
  {
    SkipOneSpace([c] + rest);
    assert ([c] + rest)[1..] == rest;
  }

  lemma ScanWordPrinted(word: string, rest: string)
    requires word != "" && !IsSpace(word[0])
    ensures ScanWord(" " + (word + rest), word) == Some(rest)
  {
    SkipOneSpace(word + rest);
    assert (word + rest)[..|word|] == word;
    assert (word + rest)[|word|..] == rest;
  }

  /** The end of a PAIR line, from the second name on. */
  lemma ScanMovePrinted(winner: Player, name1: string, name2: string, c1: char, c2: char)
    requires IsName(name2) && IsName(winner.name) && !IsSpace(c1) && !IsSpace(c2)
    ensures var t6 := " " + (Fixed3(winner.x) + (" " + (Fixed3(winner.y) + "")));
            var t5 := " " + ("MOVE" + t6);
            var t4 := " " + (winner.name + t5);
            var t3 := " " + ("WINNER" + t4);
            var t2 := " " + ([c2] + t3);
            var t1 := " " + ([c1] + t2);
            ScanPairTail(name1, " " + (name2 + t1)) ==
              Some(PairReport(name1, name2, winner.name,
                              Thousandths(winner.x) as real / 1000.0, Thousandths(winner.y) as real / 1000.0))
  {
    hide Fixed3, Thousandths, ScanToken, ScanChar, ScanWord, ScanReal;
    var t7 := " " + (Fixed3(winner.y) + "");
    var t6 := " " + (Fixed3(winner.x) + t7);
    var t5 := " " + ("MOVE" + t6);
    var t4 := " " + (winner.name + t5);
    var t3 := " " + ("WINNER" + t4);
    var t2 := " " + ([c2] + t3);
    var t1 := " " + ([c1] + t2);
    ScanTokenPrinted(name2, t1);
    ScanCharPrinted(c1, t2);
    ScanCharPrinted(c2, t3);
    ScanWordPrinted("WINNER", t4);
    ScanTokenPrinted(winner.name, t5);
    ScanWordPrinted("MOVE", t6);
    ScanRealPrinted(winner.x, t7);
    ScanRealPrinted(winner.y, "");
  }

  /** A printed PAIR line is read back as the fight it was printed for. */
  lemma ScanPairPrinted(a: Player, b: Player, winner: Player)
    requires IsName(a.name) && IsName(b.name) && IsName(winner.name) && !IsSpace(a.choice) && !IsSpace(b.choice)
    ensures ScanPair(PairLine(a, b, winner)) ==
            Some(PairReport(a.name, b.name, winner.name,
                            Thousandths(winner.x) as real / 1000.0, Thousandths(winner.y) as real / 1000.0))
  {
    ScanMovePrinted(winner, a.name, b.name, a.choice, b.choice);
    hide Fixed3, Thousandths, ScanPairTail, ScanToken;
    var t6 := " " + (Fixed3(winner.x) + (" " + (Fixed3(winner.y) + "")));
    var t5 := " " + ("MOVE" + t6);
    var t4 := " " + (winner.name + t5);
    var t3 := " " + ("WINNER" + t4);
    var t2 := " " + ([b.choice] + t3);
    var t1 := " " + ([a.choice] + t2);
    var t0 := " " + (b.name + t1);
    var line := PairLine(a, b, winner);
    assert Fixed3(winner.y) + "" == Fixed3(winner.y);
    WinnerColumns(winner);
    assert line == "PAIR " + (a.name + t0);
    assert line[..4] == "PAIR";
    assert line[4..] == " " + (a.name + t0);
    ScanTokenPrinted(a.name, t0);
  }

  /** The words of the line, with their separators split off. */
  lemma WinnerColumns(winner: Player)
    ensures var t := Fixed3(winner.x) + (" " + Fixed3(winner.y));
            " WINNER " + (winner.name + (" MOVE " + t)) ==
            " " + ("WINNER" + (" " + (winner.name + (" " + ("MOVE" + (" " + t))))))
  {
    hide Fixed3;
  }

  /** With names and types that a fighter of the match has, no byte of the line is a zero, and the
      line is sent whole. */
  lemma FightLineWhole(a: Player, b: Player, winner: Player)
    requires IsName(a.name) && IsName(b.name) && IsName(winner.name) && IsRps(a.choice) && IsRps(b.choice)
    requires OnBoard(winner.x) && OnBoard(winner.y)
    ensures FightLine(a, b, winner) == PairLine(a, b, winner) && Plain(PairLine(a, b, winner))
  {
    Fixed3Short(winner.x);
    Fixed3Short(winner.y);
    NamePlain(a.name);
    NamePlain(b.name);
    NamePlain(winner.name);
    hide Fixed3, IsName, OnBoard;
    var move := Fixed3(winner.x) + (" " + Fixed3(winner.y));
    Column(Fixed3(winner.y), "");
    assert Fixed3(winner.y) + "" == Fixed3(winner.y);
    PlainConcat(Fixed3(winner.x), " " + Fixed3(winner.y));
    PlainConcat(" MOVE ", move);
    var won := winner.name + (" MOVE " + move);
    PlainConcat(winner.name, " MOVE " + move);
    PlainConcat(" WINNER ", won);
    Column([b.choice], " WINNER " + won);
    var types := " " + ([a.choice] + (" " + ([b.choice] + (" WINNER " + won))));
    Column([a.choice], " " + ([b.choice] + (" WINNER " + won)));
    Column(b.name, types);
    PlainConcat(a.name, " " + (b.name + types));
    PlainConcat("PAIR ", a.name + (" " + (b.name + types)));
    CStringWhole(PairLine(a, b, winner));
    hide CString;
  }

  lemma NamePlain(name: string)
    requires IsName(name)
    ensures Plain(name)
  {
  }

  // ---------------------------------------------------------------- the table

  /** Where the client shows the player in slot `k`: after the admitted players in lower slots. */
  function ShownIndex(ps: seq<Player>, k: nat): nat
    requires k <= |ps|
  {
    |ShownPlayers(ps[..k])|
  }

  lemma {:induction false} ShownAt(ps: seq<Player>, k: nat)
    requires k < |ps| && IsAdmitted(ps[k])
    ensures ShownIndex(ps, k) < |ShownPlayers(ps)| && ShownPlayers(ps)[ShownIndex(ps, k)] == Shown(ps[k])
  {
    hide Shown;
    var before := ps[..|ps| - 1];
    if k < |ps| - 1 {
      ShownAt(before, k);
      assert before[..k] == ps[..k];
    }
  }

  /** Changing one admitted player changes one entry. */
  lemma {:induction false} ShownUpdate(ps: seq<Player>, k: nat, q: Player)
    requires k < |ps| && IsAdmitted(ps[k]) && IsAdmitted(q)
    ensures ShownIndex(ps, k) < |ShownPlayers(ps)|
    ensures ShownPlayers(ps[k := q]) == ShownPlayers(ps)[ShownIndex(ps, k) := Shown(q)]
  {
    hide Shown;
    ShownAt(ps, k);
    var n := |ps| - 1;
    var before := ps[..n];
    var r := ps[k := q];
    if k < n {
      assert r[..n] == before[k := q] && r[n] == ps[n];
      assert before[..k] == ps[..k];
      ShownUpdate(before, k, q);
    } else {
      assert r[..n] == before;
    }
  }

  lemma ShownIndexKept(ps: seq<Player>, k: nat, q: Player, j: nat)
    requires k < |ps| && j <= |ps| && IsAdmitted(ps[k]) && IsAdmitted(q)
    ensures ShownIndex(ps[k := q], j) == ShownIndex(ps, j)
  {
    var r := ps[k := q];
    if k < j {
      assert r[..j] == ps[..j][k := q];
      ShownUpdate(ps[..j], k, q);
    } else {
      assert r[..j] == ps[..j];
    }
  }

  /** The client finds a player by its name where it shows it. */
  lemma FoundWhereShown(ps: Table, k: Slot)
    requires Distinct(ps) && IsAdmitted(ps[k])
    ensures FindPlayer(ShownTable(ps), ps[k].name) == ShownIndex(ps, k) < |ShownPlayers(ps)|
  {
    var i := ShownIndex(ps, k);
    ShownAt(ps, k);
    ShownName(ps[k]);
    ShownNames(ps[..k], ps[k].name);
    ShownPrefix(ps, k);
    hide Shown, ShownPlayers;
    var table := ShownTable(ps);
    assert table[i].used && table[i].name == ps[k].name;
    assert forall j :: 0 <= j < i ==> table[j] == ShownPlayers(ps[..k])[j];
  }

  lemma {:induction false} ShownPrefix(ps: seq<Player>, k: nat)
    requires k <= |ps|
    ensures ShownPlayers(ps[..k]) <= ShownPlayers(ps)
  {
    hide Shown;
    if k < |ps| {
      ShownPrefix(ps[..|ps| - 1], k);
      assert ps[..|ps| - 1][..k] == ps[..k];
    } else {
      assert ps[..k] == ps;
    }
  }

  lemma ShownTableUpdate(ps: Table, k: Slot, q: Player)
    requires IsAdmitted(ps[k]) && IsAdmitted(q)
    ensures ShownIndex(ps, k) < MAX_PLAYERS
    ensures ShownTable(ps[k := q]) == ShownTable(ps)[ShownIndex(ps, k) := Shown(q)]
    ensures ShownTable(ps)[ShownIndex(ps, k)] == Shown(ps[k])
  {
    ShownAt(ps, k);
    ShownUpdate(ps, k, q);
    hide Shown, ShownPlayers, ShownIndex;
  }

  lemma PairLineBegins(a: Player, b: Player, winner: Player)
    ensures var line := PairLine(a, b, winner);
            StartsWith(line, "PAIR ") && Begins(line, 'P', 'A') && !StartsWith(line, "PLAYER")
            && line != "STATE_BEGIN" && line != "STATE_END"
  {
    hide Fixed3;
    var line := PairLine(a, b, winner);
    assert line[..5] == "PAIR ";
    PrefixBegins(line, "PLAYER");
  }

  lemma LaterTokens()
    ensures |DISPATCH| == 25 && DISPATCH[22] == Entry("PAIR ", false, Snapshot)
    ensures forall k :: 16 <= k < 22 ==> |DISPATCH[k].token| >= 2 && !Begins(DISPATCH[k].token, 'P', 'A')
  {
  }

  lemma PairLineDispatch(line: string)
    requires StartsWith(line, "PAIR ") && Begins(line, 'P', 'A')
    ensures ParserFor(DISPATCH, line) == Some(Snapshot)
  {
    hide StartsWith, ParserFor, Begins, LineMatches;
    SkipGeneral(line);
    LaterTokens();
    var rest := DISPATCH[16..];
    forall k | 0 <= k < 6
      ensures !LineMatches(rest[k], line)
    {
      if LineMatches(rest[k], line) {
        MatchBegins(rest[k], line, 'P', 'A');
      }
    }
    ParserAfter(rest, 6, line);
    assert rest[6..][0] == DISPATCH[22];
    assert LineMatches(DISPATCH[22], line) by { PairEntryMatches(line); }
    ParserForFirst(rest[6..], line);
  }

  lemma PairEntryMatches(line: string)
    requires StartsWith(line, "PAIR ")
    ensures LineMatches(Entry("PAIR ", false, Snapshot), line)
  {
  }

  lemma PairLineHandled(ps: ClientTable, line: string)
    requires ParserFor(DISPATCH, line) == Some(Snapshot) && StartsWith(line, "PAIR ") && !StartsWith(line, "PLAYER")
    requires line != "STATE_BEGIN" && line != "STATE_END" && ScanPair(line).Some?
    ensures LineHandled(ps, line) == Paired(ps, ScanPair(line).value)
  {
    hide ParserFor, ScanPair, Paired, StartsWith;
  }

  /** What the client makes of the winner and of the loser is what the server made of them. */
  lemma FightersShown(w: Player, l: Player, nextId: int)
    requires IsAlive(w) && IsAlive(l) && PlayerOk(w, nextId) && PlayerOk(l, nextId)
    ensures Shown(w.(x := l.x, y := l.y)) == Shown(w).(x := Thousandths(l.x) as real / 1000.0,
                                                       y := Thousandths(l.y) as real / 1000.0, alive := 1, waiting := 0)
    ensures Shown(Eliminated(l)) == Shown(l).(alive := 0, waiting := 0, x := -1.0, y := -1.0)
  {
    assert Thousandths(-1.0) == -1000;
  }

  /** A report of a fight takes the table before it to the table after it. */
  lemma PairedShown(ps: Table, w: Slot, l: Slot, report: PairReport, nextId: int)
    requires w != l && Distinct(ps) && IsAlive(ps[w]) && IsAlive(ps[l])
    requires PlayerOk(ps[w], nextId) && PlayerOk(ps[l], nextId)
    requires report.winner == ps[w].name
    requires (if report.winner == report.name1 then report.name2 else report.name1) == ps[l].name
    requires report.x == Thousandths(ps[l].x) as real / 1000.0 && report.y == Thousandths(ps[l].y) as real / 1000.0
    ensures Paired(ShownTable(ps), report) ==
            ShownTable(ps[w := ps[w].(x := ps[l].x, y := ps[l].y)][l := Eliminated(ps[l])])
  {
    hide PlayerOk, Thousandths, Shown, ShownIndex, ShownTable, FindPlayer, Eliminated, Distinct, Paired;
    var w', l' := ps[w].(x := ps[l].x, y := ps[l].y), Eliminated(ps[l]);
    FightersShown(ps[w], ps[l], nextId);
    FoundWhereShown(ps, w);
    FoundWhereShown(ps, l);
    IndexesDiffer(ps, w, l);
    EliminatedStaysAdmitted(ps[l]);
    BothShown(ps, w, l, w', l');
    PairedAt(ShownTable(ps), report, ShownIndex(ps, w), ShownIndex(ps, l), ps[l].name);
  }

  lemma EliminatedStaysAdmitted(p: Player)
    requires IsAdmitted(p)
    ensures IsAdmitted(Eliminated(p))
  {
  }

  /** Changing two admitted players changes their two entries. */
  lemma BothShown(ps: Table, w: Slot, l: Slot, w': Player, l': Player)
    requires w != l && IsAdmitted(ps[w]) && IsAdmitted(ps[l]) && IsAdmitted(w') && IsAdmitted(l')
    ensures var i, j := ShownIndex(ps, w), ShownIndex(ps, l);
            && i < MAX_PLAYERS && j < MAX_PLAYERS
            && ShownTable(ps)[i] == Shown(ps[w]) && ShownTable(ps)[j] == Shown(ps[l])
            && ShownTable(ps[w := w'][l := l']) == ShownTable(ps)[i := Shown(w')][j := Shown(l')]
  {
    hide Shown, ShownIndex, ShownTable;
    ShownTableUpdate(ps, w, w');
    ShownTableUpdate(ps, l, l');
    ShownIndexKept(ps, w, w', l);
    ShownTableUpdate(ps[w := w'], l, l');
  }

  lemma PairedAt(table: ClientTable, report: PairReport, i: nat, j: nat, loser: string)
    requires loser == if report.winner == report.name1 then report.name2 else report.name1
    requires FindPlayer(table, report.winner) == i < MAX_PLAYERS && FindPlayer(table, loser) == j < MAX_PLAYERS && i != j
    ensures Paired(table, report) ==
            table[i := table[i].(x := report.x, y := report.y, alive := 1, waiting := 0)]
                 [j := table[j].(alive := 0, waiting := 0, x := -1.0, y := -1.0)]
  {
    hide FindPlayer;
  }

  lemma NamesApart(ps: Table, a: Slot, b: Slot)
    requires a != b && Distinct(ps) && IsAdmitted(ps[a]) && IsAdmitted(ps[b])
    ensures ps[a].name != ps[b].name
  {
    assert a < b || b < a;
  }

  lemma FightingText(p: Player, nextId: int)
    requires IsAlive(p) && PlayerOk(p, nextId)
    ensures IsName(p.name) && !IsSpace(p.choice) && IsRps(p.choice) && OnBoard(p.x) && OnBoard(p.y)
  {
  }

  /** After a decisive fight between two living players, a client that shows the table before the
      fight and handles the line about it shows the table after it. */
  lemma FightShown(ps: Table, p: Pair, nextId: int)
    requires InTable(p) && Distinct(ps) && Result(ps, p) != 0
    requires IsAlive(ps[p.a]) && IsAlive(ps[p.b]) && PlayerOk(ps[p.a], nextId) && PlayerOk(ps[p.b], nextId)
    ensures var t := Fought(ps, p);
            var winner := if Result(ps, p) == 1 then p.a else p.b;
            LineHandled(ShownTable(ps), FightLine(t[p.a], t[p.b], t[winner])) == ShownTable(t)
  {
    FightingText(ps[p.a], nextId);
    FightingText(ps[p.b], nextId);
    NamesApart(ps, p.a, p.b);
    hide PlayerOk, PairLine, FightLine, ScanPair, Thousandths, ShownTable, LineHandled, Paired, IsName, IsRps, OnBoard;
    var t := Fought(ps, p);
    if Result(ps, p) == 1 {
      var w' := ps[p.a].(x := ps[p.b].x, y := ps[p.b].y);
      assert t == ps[p.a := w'][p.b := Eliminated(ps[p.b])];
      FightLineWhole(t[p.a], t[p.b], w');
      LineShown(ShownTable(ps), t[p.a], t[p.b], w');
      PairedShown(ps, p.a, p.b, ScanPair(PairLine(t[p.a], t[p.b], w')).value, nextId);
    } else {
      var w' := ps[p.b].(x := ps[p.a].x, y := ps[p.a].y);
      assert t == ps[p.b := w'][p.a := Eliminated(ps[p.a])];
      FightLineWhole(t[p.a], t[p.b], w');
      LineShown(ShownTable(ps), t[p.a], t[p.b], w');
      PairedShown(ps, p.b, p.a, ScanPair(PairLine(t[p.a], t[p.b], w')).value, nextId);
    }
  }

  lemma LineShown(ps: ClientTable, a: Player, b: Player, winner: Player)
    requires IsName(a.name) && IsName(b.name) && IsName(winner.name) && !IsSpace(a.choice) && !IsSpace(b.choice)
    ensures var line := PairLine(a, b, winner);
            && ScanPair(line) == Some(PairReport(a.name, b.name, winner.name, Thousandths(winner.x) as real / 1000.0,
                                                 Thousandths(winner.y) as real / 1000.0))
            && LineHandled(ps, line) == Paired(ps, ScanPair(line).value)
  {
    ScanPairPrinted(a, b, winner);
    PairLineBegins(a, b, winner);
    hide PairLine, ScanPair, Thousandths, Begins, StartsWith, LineHandled, Paired;
    PairLineDispatch(PairLine(a, b, winner));
    PairLineHandled(ps, PairLine(a, b, winner));
  }

  lemma IndexesDiffer(ps: Table, w: Slot, l: Slot)
    requires w != l && IsAdmitted(ps[w]) && IsAdmitted(ps[l])
    ensures ShownIndex(ps, w) != ShownIndex(ps, l)
  {
    if w < l {
      ShownAt(ps[..l], w);
      assert ps[..l][..w] == ps[..w];
    } else {
      ShownAt(ps[..w], l);
      assert ps[..w][..l] == ps[..l];
    }
  }
}
