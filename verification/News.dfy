/** What an operation has sent to a slot, as lines: the complete lines behind what was pending before. */
module News {
  import opened Common
  import opened Protocol
  import opened Transport
  import opened ServerState
  import opened ServerInvariant
  import opened SnapshotText
  import opened Sending

  /** The lines queued between two values of an output buffer. */
  function Gained(before: string, after: string): seq<string> {
    if before <= after then Drain(after[|before|..]).0 else []
  }

  lemma {:induction false} DrainWhole(lines: seq<string>)
    requires AllLines(lines)
    ensures Drain(Framed(lines)).0 == lines
  {
    var (popped, left) := Drain(Framed(lines));
    assert Framed(lines) + "" == Framed(lines);
    DrainFramed(Framed(lines), "", lines);
    var rest := lines[|popped|..];
    assert left + "" == left;
    if rest != [] {
      FramedHasNewline(rest);
    }
  }

  lemma {:induction false} GainedLines(before: string, lines: seq<string>)
    requires AllLines(lines)
    ensures Gained(before, before + Framed(lines)) == lines
  {
    DrainWhole(lines);
    hide Drain, Framed;
    assert (before + Framed(lines))[|before|..] == Framed(lines);
  }

  lemma GainedNothing(a: string)
    ensures Gained(a, a) == []
  {
    assert a[|a|..] == "";
  }

  lemma GainedLine(pending: string, line: string)
    requires Plain(line) && Enqueued(pending, line).Some?
    ensures Gained(pending, Enqueued(pending, line).value) == [line]
  {
    FramedOne(line);
    assert AllLines([line]);
    GainedLines(pending, [line]);
    hide Gained, Framed;
  }

  /** What was gained in two steps. */
  lemma GainedTwice(a: string, b: string, c: string)
    requires Extends(a, b) && Extends(b, c)
    ensures Extends(a, c) && Gained(a, c) == Gained(a, b) + Gained(b, c)
  {
    var l :| AllLines(l) && b == a + Framed(l);
    var m :| AllLines(m) && c == b + Framed(m);
    ExtendsTransitive(a, b, c);
    FramedConcat(l, m);
    AllLinesConcat(l, m);
    ConcatAssociates(a, Framed(l), Framed(m));
    GainedLines(a, l);
    GainedLines(b, m);
    GainedLines(a, l + m);
    hide Gained, Framed, AllLines;
  }

  /** Several plain lines that fit are gained as they are. */
  lemma {:induction false} GainedAll(pending: string, lines: seq<string>)
    requires AllPlain(lines) && EnqueuedAll(pending, lines).Some?
    ensures Gained(pending, EnqueuedAll(pending, lines).value) == lines
    ensures Extends(pending, EnqueuedAll(pending, lines).value)
    decreases |lines|
  {
    ExtendsAll(pending, lines);
    hide Gained, Extends;
    if lines == [] {
      GainedNothing(pending);
    } else {
      var next := Enqueued(pending, lines[0]).value;
      GainedLine(pending, lines[0]);
      ExtendsLine(pending, lines[0]);
      GainedAll(next, lines[1..]);
      GainedTwice(pending, next, EnqueuedAll(pending, lines).value);
    }
  }

  // ---------------------------------------------------------------- broadcasts

  /** Whoever stays through a broadcast, with all that follows from it, has got its line first. */
  lemma BroadcastIsTold(s: Server, line: string, now: nat, k: Slot)
    requires Sound(s) && Plain(line) && Broadcast(s, line, now).players[k].connected
    ensures var p, q := s.players[k], Broadcast(s, line, now).players[k];
            p.connected && Extends(p.outbuf, q.outbuf) && [line] <= Gained(p.outbuf, q.outbuf)
  {
    var s' := s.(players := MapConnected(s.players, p => Delivered(p, line)));
    var r := Broadcast(s, line, now);
    BroadcastPrunes(s.players, line);
    PrunedKeeps(s, s');
    assert s'.players[k] == if s.players[k].connected then Delivered(s.players[k], line) else s.players[k];
    hide MapConnected, Extends, Gained, Records, Kept, Plain;
    ReevaluateFeeds(s', now);
    FeedsNothing(s'.players);
    hide Reevaluate;
    FedSlot(s'.players, r.players, k);
    LineThenMore(s.players[k], line, s'.players[k], r.players[k].outbuf);
  }

  lemma LineThenMore(p: Player, line: string, m: Player, after: string)
    requires p.connected && Plain(line) && m == Delivered(p, line) && m.connected && Extends(m.outbuf, after)
    ensures Extends(p.outbuf, after) && [line] <= Gained(p.outbuf, after)
  {
    hide Extends, Gained, Plain;
    GainedLine(p.outbuf, line);
    ExtendsLine(p.outbuf, line);
    GainedTwice(p.outbuf, m.outbuf, after);
  }
}
