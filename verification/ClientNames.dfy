/** Names in the client's table: whatever lines it handles, no two slots in use have the same name, and
    a LEFT line takes exactly the player that it names out of use. */
module ClientNames {
  import opened Common
  import opened Text
  import opened Client
  import opened SnapshotRoundTrip

  /** No two slots in use have the same name. */
  ghost predicate NamesApart(ps: ClientTable) {
    forall i: Slot, j: Slot :: i < j && ps[i].used && ps[j].used ==> ps[i].name != ps[j].name
  }

  lemma OneNameKept(ps: ClientTable, i: Slot, p: ClientPlayer)
    requires NamesApart(ps) && (p.used ==> forall k: Slot :: k != i && ps[k].used ==> ps[k].name != p.name)
    ensures NamesApart(ps[i := p])
  {
  }

  lemma ReportedApart(ps: ClientTable, report: PlayerReport)
    requires NamesApart(ps)
    ensures NamesApart(Reported(ps, report))
  {
    var i := SlotFor(ps, report.name);
    if i < MAX_PLAYERS {
      hide NamesApart;
      forall k: Slot | k != i && ps[k].used
        ensures ps[k].name != report.name
      {
        if ps[k].name == report.name {
          OwnSlot(ps, report.name, k);
        }
      }
      OneNameKept(ps, i, Reported(ps, report)[i]);
    }
  }

  lemma OwnSlot(ps: ClientTable, name: string, k: Slot)
    requires NamesApart(ps) && ps[k].used && ps[k].name == name
    ensures FindPlayer(ps, name) == k
  {
    assert FindPlayer(ps, name) <= k;
  }

  lemma PairedApart(ps: ClientTable, report: PairReport)
    requires NamesApart(ps)
    ensures NamesApart(Paired(ps, report))
  {
    var r := Paired(ps, report);
    assert forall k: Slot :: r[k].used == ps[k].used && r[k].name == ps[k].name;
  }

  lemma LineKeepsNames(ps: ClientTable, line: string)
    requires NamesApart(ps)
    ensures NamesApart(LineHandled(ps, line))
  {
    hide ParserFor, Reported, Paired, ScanPlayer, ScanPair, ScanLeft;
    if ScanPlayer(line).Some? {
      ReportedApart(ps, ScanPlayer(line).value);
    }
    if ScanPair(line).Some? {
      PairedApart(ps, ScanPair(line).value);
    }
  }

  /** Whatever lines a client has handled since it started. */
  lemma {:induction false} LinesKeepNames(lines: seq<string>)
    ensures NamesApart(LinesHandled(ClearedTable(), lines))
    decreases |lines|
  {
    hide LineHandled, NamesApart;
    if lines == [] {
      assert NamesApart(ClearedTable()) by { ClearedApart(); }
    } else {
      LinesKeepNames(lines[..|lines| - 1]);
      LineKeepsNames(LinesHandled(ClearedTable(), lines[..|lines| - 1]), lines[|lines| - 1]);
    }
  }

  lemma ClearedApart()
    ensures NamesApart(ClearedTable())
  {
  }

  // ---------------------------------------------------------------- LEFT

  lemma LeftTokens(k: nat)
    requires k < 14
    ensures |DISPATCH[k].token| >= 2 && !Begins(DISPATCH[k].token, 'L', 'E') && DISPATCH[14] == Entry("LEFT ", false, General)
  {
  }

  lemma LeftDispatch(line: string)
    requires StartsWith(line, "LEFT ") && Begins(line, 'L', 'E')
    ensures ParserFor(DISPATCH, line) == Some(General)
  {
    LeftTokens(0);
    assert LineMatches(DISPATCH[14], line);
    hide LineMatches, Begins, ParserFor, StartsWith;
    forall k | 0 <= k < 14
      ensures !LineMatches(DISPATCH[k], line)
    {
      LeftTokens(k);
      if LineMatches(DISPATCH[k], line) {
        MatchBegins(DISPATCH[k], line, 'L', 'E');
      }
    }
    ParserAfter(DISPATCH, 14, line);
    assert DISPATCH[14..][0] == DISPATCH[14];
    ParserForFirst(DISPATCH[14..], line);
  }

  lemma {:induction false} LastToken(name: string, limit: nat)
    requires |name| <= limit && forall k :: 0 <= k < |name| ==> !IsSpace(name[k])
    ensures TokenLength(name, limit) == |name|
  {
    if name != "" {
      LastToken(name[1..], limit - 1);
    }
  }

  lemma LeftScanned(name: string)
    requires IsName(name)
    ensures var line := "LEFT " + name;
            StartsWith(line, "LEFT ") && Begins(line, 'L', 'E') && ScanLeft(line) == Some(name) && line != "MATCH_RESET"
  {
    var line := "LEFT " + name;
    assert line[..5] == "LEFT " && line[..4] == "LEFT" && line[4..] == " " + name;
    SkipOneSpace(name);
    LastToken(name, MAX_NAME_LENGTH - 1);
    assert name[..|name|] == name;
    assert line[0] == 'L' && "MATCH_RESET"[0] == 'M';
  }

  /** A client that handles the line about a departure has nobody under that name in use any more, and
      everybody else as before. */
  lemma LeftHandled(ps: ClientTable, name: string)
    requires NamesApart(ps) && IsName(name)
    ensures forall k: Slot ::
              LineHandled(ps, "LEFT " + name)[k] == if ps[k].used && ps[k].name == name then ps[k].(used := false) else ps[k]
  {
    var line := "LEFT " + name;
    LeftScanned(name);
    LeftDispatch(line);
    hide ParserFor, ScanLeft, StartsWith, NamesApart;
    var i := FindPlayer(ps, name);
    forall k: Slot | ps[k].used && ps[k].name == name
      ensures k == i
    {
      OwnSlot(ps, name, k);
    }
  }

  // ---------------------------------------------------------------- the other lines

  /** A rematch empties the client's table. */
  lemma ResetHandled(ps: ClientTable)
    ensures LineHandled(ps, "MATCH_RESET") == seq(MAX_PLAYERS, _ => NO_PLAYER)
  {
    assert DISPATCH[1] == Entry("MATCH_RESET", true, General) && "WELCOME "[0] == 'W';
    assert !LineMatches(DISPATCH[0], "MATCH_RESET") by { PrefixBegins("MATCH_RESET", "WELCOME "); }
    hide ParserFor;
    ParserAfter(DISPATCH, 1, "MATCH_RESET");
    assert DISPATCH[1..][0] == DISPATCH[1];
    ParserForFirst(DISPATCH[1..], "MATCH_RESET");
  }

  /** No line touches the table but those that begin or end a match or a snapshot, and those about a
      player, a fight or a departure. */
  lemma OtherLinesIgnored(ps: ClientTable, line: string)
    requires line != "MATCH_RESET" && line != "STATE_BEGIN"
    requires !StartsWith(line, "PLAYER") && !StartsWith(line, "PAIR") && !StartsWith(line, "LEFT")
    ensures LineHandled(ps, line) == ps
  {
    hide ParserFor;
  }
}
