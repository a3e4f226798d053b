/** One connection over a run of the server: what the server queues for a slot, what is under way,
    and what the client at the other end has popped; and the client's table once a snapshot that it
    asked for has arrived. */
module Delivery {
  import opened Common
  import opened Protocol
  import opened Transport
  import opened ServerState
  import opened ServerCommands
  import opened ServerInvariant
  import opened ServerRuns
  import opened RunInvariant
  import opened MatchRuns
  import opened SnapshotText
  import opened Client
  import opened SnapshotRoundTrip
  import opened Sending

  /** The far side of one slot: all bytes that the server has put into the slot's buffer so far, those
      under way, the client's receive buffer, and the lines that the client has popped. */
  datatype Peer = Peer(written: string, wire: string, inbuf: string, delivered: seq<string>, broken: bool)

  /** The server handles an event, or the client reads up to `count` bytes and drains its buffer. */
  datatype Act = Serve(event: Event) | Read(count: nat)

  function LinkOf(p: Player, c: Peer, queued: seq<string>): Link {
    Link(p.outbuf, c.wire, c.inbuf, queued, c.delivered, c.broken)
  }

  /** The bytes that an event puts behind those pending for slot `k`, and those that it sends. */
  function Served(s: Server, r: Server, k: Slot, c: Peer, sent: nat): Peer
    requires sent <= |s.players[k].outbuf|
  {
    var p, q := s.players[k], r.players[k];
    var kept := |p.outbuf| - sent;
    c.(wire := c.wire + p.outbuf[..sent],
       written := c.written + if kept <= |q.outbuf| then q.outbuf[kept..] else "")
  }

  function Watched(w: World, k: Slot, c: Peer, a: Act, root: real -> real): (World, Peer) {
    match a
    case Serve(e) =>
      var m := Step(w, e, root);
      (m, Served(w.server, m.server, k, c, SentBy(w.server, e, k)))
    case Read(count) =>
      var l := LinkStep(LinkOf(EMPTY_SLOT, c, []), Receive(count));
      (w, c.(wire := l.wire, inbuf := l.inbuf, delivered := l.delivered, broken := l.broken))
  }

  function Watch(w: World, k: Slot, c: Peer, acts: seq<Act>, root: real -> real): (World, Peer)
    decreases |acts|
  {
    if acts == [] then (w, c) else
      var (m, d) := Watch(w, k, c, acts[..|acts| - 1], root);
      Watched(m, k, d, acts[|acts| - 1], root)
  }

  /** The slot stays connected throughout. */
  ghost predicate StaysOn(w: World, k: Slot, c: Peer, acts: seq<Act>, root: real -> real)
    decreases |acts|
  {
    && Watch(w, k, c, acts, root).0.server.players[k].connected
    && (acts == [] || StaysOn(w, k, c, acts[..|acts| - 1], root))
  }

  /** The server has queued exactly the lines `queued` for the slot, and what of them the client has
      not popped is, byte for byte, in the two buffers and on the wire. */
  ghost predicate Faithful(w: World, k: Slot, c: Peer, queued: seq<string>) {
    InFlight(LinkOf(w.server.players[k], c, queued)) && c.written == Framed(queued)
  }

  // ---------------------------------------------------------------- one act

  lemma MovedInFlight(l: Link, n: nat)
    requires InFlight(l) && n <= |l.outbuf|
    ensures InFlight(l.(outbuf := l.outbuf[n..], wire := l.wire + l.outbuf[..n]))
  {
    hide Framed, NewlineAt;
    assert (l.wire + l.outbuf[..n]) + l.outbuf[n..] == l.wire + l.outbuf;
  }

  lemma QueuedInFlight(l: Link, lines: seq<string>)
    requires InFlight(l) && AllLines(lines) && |l.outbuf + Framed(lines)| <= OUTBUF_SIZE
    ensures InFlight(l.(outbuf := l.outbuf + Framed(lines), queued := l.queued + lines))
    ensures Framed(l.queued + lines) == Framed(l.queued) + Framed(lines)
  {
    FramedConcat(l.queued, lines);
    var d := |l.delivered|;
    FramedConcat(l.queued[d..], lines);
    hide Framed, NewlineAt, IsLine;
    assert (l.queued + lines)[d..] == l.queued[d..] + lines;
    assert (l.queued + lines)[..d] == l.queued[..d];
    assert l.inbuf + (l.wire + (l.outbuf + Framed(lines))) == (l.inbuf + (l.wire + l.outbuf)) + Framed(lines);
  }

  /** What the server has queued in addition, and what it has sent. */
  lemma ServedFaithful(w: World, m: World, k: Slot, c: Peer, sent: nat, queued: seq<string>, lines: seq<string>)
    requires Faithful(w, k, c, queued) && sent <= |w.server.players[k].outbuf| && AllLines(lines)
    requires m.server.players[k].outbuf == w.server.players[k].outbuf[sent..] + Framed(lines)
    requires |m.server.players[k].outbuf| <= OUTBUF_SIZE
    ensures Faithful(m, k, Served(w.server, m.server, k, c, sent), queued + lines)
  {
    var p, q := w.server.players[k], m.server.players[k];
    var l := LinkOf(p, c, queued);
    MovedInFlight(l, sent);
    QueuedInFlight(l.(outbuf := p.outbuf[sent..], wire := c.wire + p.outbuf[..sent]), lines);
    hide InFlight, Framed;
    assert q.outbuf[|p.outbuf| - sent..] == Framed(lines);
  }

  lemma ReadFaithful(w: World, k: Slot, c: Peer, count: nat, queued: seq<string>, root: real -> real)
    requires Faithful(w, k, c, queued)
    ensures Faithful(w, k, Watched(w, k, c, Read(count), root).1, queued)
  {
    var l := LinkOf(w.server.players[k], c, queued);
    ReceiveKeepsInFlight(l, count);
    hide InFlight, Framed, Drain;
    assert LinkStep(l, Receive(count)) == LinkOf(w.server.players[k], Watched(w, k, c, Read(count), root).1, queued);
  }

  lemma OutbufFits(s: Server, k: Slot)
    requires Inv(s) && s.players[k].connected
    ensures |s.players[k].outbuf| <= OUTBUF_SIZE
  {
    assert PlayerOk(s.players[k], s.nextId);
  }

  /** Whatever happens next, the connection stays faithful, and lines are only added. */
  lemma ActFaithful(w: World, k: Slot, c: Peer, a: Act, queued: seq<string>, root: real -> real) returns (lines: seq<string>)
    requires Inv(w.server) && w.server.players[k].connected && Faithful(w, k, c, queued)
    requires Watched(w, k, c, a, root).0.server.players[k].connected
    ensures var (m, d) := Watched(w, k, c, a, root); Inv(m.server) && Faithful(m, k, d, queued + lines)
  {
    match a {
      case Serve(e) =>
        StepKeepsInv(w, e, root);
        StepSendsLines(w, e, root, k);
        var m := Step(w, e, root);
        var sent := SentBy(w.server, e, k);
        hide Step, Inv, SentBy, Faithful, AllLines;
        lines :| AllLines(lines) && m.server.players[k].outbuf == w.server.players[k].outbuf[sent..] + Framed(lines);
        OutbufFits(m.server, k);
        ServedFaithful(w, m, k, c, sent, queued, lines);
      case Read(count) =>
        lines := [];
        assert queued + [] == queued;
        hide Faithful, Inv;
        ReadFaithful(w, k, c, count, queued, root);
    }
  }

  // ---------------------------------------------------------------- a connection from its start

  const NEW_PEER := Peer("", "", "", [], false)

  /** A slot that an accept has just taken, and the client behind it. */
  function FirstPeer(p: Player): Peer { NEW_PEER.(written := p.outbuf) }

  lemma StartFaithful(w: World, k: Slot, root: real -> real) returns (queued: seq<string>)
    requires Inv(w.server) && !w.server.players[k].connected && Step(w, Accept, root).server.players[k].connected
    ensures var m := Step(w, Accept, root); Inv(m.server) && Faithful(m, k, FirstPeer(m.server.players[k]), queued)
  {
    StepKeepsInv(w, Accept, root);
    StepSendsLines(w, Accept, root, k);
    var m := Step(w, Accept, root);
    OutbufFits(m.server, k);
    hide Step, Inv;
    queued :| AllLines(queued) && m.server.players[k].outbuf == "" + Framed(queued);
    assert "" + ("" + m.server.players[k].outbuf) == m.server.players[k].outbuf;
    assert queued[0..] == queued;
  }

  lemma {:induction false} WatchFaithful(
      w: World, k: Slot, c: Peer, acts: seq<Act>, before: seq<string>, root: real -> real) returns (queued: seq<string>)
    requires Inv(w.server) && Faithful(w, k, c, before) && StaysOn(w, k, c, acts, root)
    ensures var (m, d) := Watch(w, k, c, acts, root); Inv(m.server) && Faithful(m, k, d, queued)
    ensures before <= queued
    decreases |acts|
  {
    hide Inv, Faithful, Watched;
    queued := before;
    if acts != [] {
      var n := |acts| - 1;
      queued := WatchFaithful(w, k, c, acts[..n], before, root);
      var (m, d) := Watch(w, k, c, acts[..n], root);
      assert StaysOn(w, k, c, acts[..n], root);
      var lines := ActFaithful(m, k, d, acts[n], queued, root);
      queued := queued + lines;
    }
  }

  /** The connection of any slot in any run. From the moment it is accepted, as long as it lasts, and
      however its bytes are sent and read: the bytes the server has put into its buffer are whole lines
      that the framing carries; the client never overflows, and has popped the first of those lines,
      unaltered; and all of them once nothing is pending or under way. */
  lemma ClientPopsWhatWasQueued(
      clock: real, events: seq<Event>, k: Slot, acts: seq<Act>, root: real -> real) returns (queued: seq<string>)
    requires !Run(StartOfServer(clock), events, root).server.players[k].connected
    requires var w := Step(Run(StartOfServer(clock), events, root), Accept, root);
             StaysOn(w, k, FirstPeer(w.server.players[k]), acts, root)
    ensures var w := Step(Run(StartOfServer(clock), events, root), Accept, root);
            var (m, c) := Watch(w, k, FirstPeer(w.server.players[k]), acts, root);
            && AllLines(queued) && c.written == Framed(queued)
            && !c.broken && |c.inbuf| < MAX_LINE - 2
            && |c.delivered| <= |queued| && c.delivered == queued[..|c.delivered|]
            && (m.server.players[k].outbuf == "" && c.wire == "" ==> c.delivered == queued)
  {
    ReachableStates(clock, events, root);
    var before := Run(StartOfServer(clock), events, root);
    var w := Step(before, Accept, root);
    var c := FirstPeer(w.server.players[k]);
    hide Run, Step, Inv, Framed, FirstPeer;
    StaysFromStart(w, k, c, acts, root);
    var first := StartFaithful(before, k, root);
    queued := WatchFaithful(w, k, c, acts, first, root);
    var (m, d) := Watch(w, k, c, acts, root);
    InFlightDelivers(LinkOf(m.server.players[k], d, queued));
  }

  lemma {:induction false} StaysFromStart(w: World, k: Slot, c: Peer, acts: seq<Act>, root: real -> real)
    requires StaysOn(w, k, c, acts, root)
    ensures w.server.players[k].connected
    decreases |acts|
  {
    if acts != [] {
      StaysFromStart(w, k, c, acts[..|acts| - 1], root);
    }
  }

  // ---------------------------------------------------------------- a snapshot arrives

  /** The server only flushes the slot, and the client only reads. */
  predicate OnlyMoves(acts: seq<Act>, k: Slot) {
    forall j :: 0 <= j < |acts| ==> acts[j].Read? || (acts[j].event.Write? && acts[j].event.slot == k)
  }

  lemma FlushMoves(w: World, k: Slot, e: Event, root: real -> real)
    requires Inv(w.server) && w.server.players[k].connected && e.Write? && e.slot == k
    requires Step(w, e, root).server.players[k].connected
    ensures Step(w, e, root).server.players[k].outbuf == w.server.players[k].outbuf[SentBy(w.server, e, k)..]
  {
    var s := w.server;
    var p := s.players[k];
    var (sent, outcome) := FlushCount(|p.outbuf|, e.sends);
    var q := p.(outbuf := p.outbuf[sent..]);
    var s1 := WithPlayer(s, k, q);
    assert PlayerOk(p, s.nextId);
    assert PlayerOk(q, s.nextId);
    PlayerChangeAdvances(s, k, q);
    hide Lost;
    if outcome == Broken {
      LostGone(s1, k, e.now);
    }
  }

  lemma {:induction false} MovesFaithful(w: World, k: Slot, c: Peer, acts: seq<Act>, queued: seq<string>, root: real -> real)
    requires Inv(w.server) && Faithful(w, k, c, queued) && StaysOn(w, k, c, acts, root) && OnlyMoves(acts, k)
    ensures var (m, d) := Watch(w, k, c, acts, root); Inv(m.server) && Faithful(m, k, d, queued)
    decreases |acts|
  {
    if acts != [] {
      var n := |acts| - 1;
      var a := acts[n];
      assert forall j :: 0 <= j < n ==> acts[..n][j] == acts[j];
      hide Inv, Faithful, Step;
      MovesFaithful(w, k, c, acts[..n], queued, root);
      var (m, d) := Watch(w, k, c, acts[..n], root);
      assert StaysOn(w, k, c, acts[..n], root);
      if a.Read? {
        ReadFaithful(m, k, d, a.count, queued, root);
      } else {
        StepKeepsInv(m, a.event, root);
        FlushMoves(m, k, a.event, root);
        var r := Step(m, a.event, root);
        OutbufFits(r.server, k);
        NothingQueued(m, r, k, d, SentBy(m.server, a.event, k), queued);
      }
    }
  }

  lemma NothingQueued(w: World, m: World, k: Slot, c: Peer, sent: nat, queued: seq<string>)
    requires Faithful(w, k, c, queued) && sent <= |w.server.players[k].outbuf|
    requires m.server.players[k].outbuf == w.server.players[k].outbuf[sent..] && |m.server.players[k].outbuf| <= OUTBUF_SIZE
    ensures Faithful(m, k, Served(w.server, m.server, k, c, sent), queued)
  {
    FramedNothing();
    hide Faithful, Framed;
    assert m.server.players[k].outbuf + "" == m.server.players[k].outbuf;
    ServedFaithful(w, m, k, c, sent, queued, []);
    assert queued + [] == queued;
  }

  /** A GET_STATE whose snapshot fits queues exactly the lines of that snapshot. */
  lemma SnapshotQueued(w: World, k: Slot, c: Peer, now: nat, queued: seq<string>, root: real -> real)
    requires Inv(w.server) && w.server.players[k].connected && Faithful(w, k, c, queued)
    requires EnqueuedAll(w.server.players[k].outbuf, SnapshotLines(w.server, w.server.players[k], now)).Some?
    ensures var (m, d) := Watched(w, k, c, Serve(Line(k, GetState, now)), root);
            && Inv(m.server) && m.server.players[k].connected
            && Faithful(m, k, d, queued + SnapshotLines(w.server, w.server.players[k], now))
  {
    var s, p, e := w.server, w.server.players[k], Line(k, GetState, now);
    var lines := SnapshotLines(s, p, now);
    StepKeepsInv(w, e, root);
    SoundRecords(s);
    SnapshotPlain(s, p, now);
    hide SnapshotLines, EnqueuedAll, Inv, Faithful, Framed;
    QueuedAre(p.outbuf, lines);
    StateGiven(w, k, now, root);
    var m := Step(w, e, root);
    hide Step, Served;
    OutbufFits(m.server, k);
    assert p.outbuf[0..] == p.outbuf;
    ServedFaithful(w, m, k, c, 0, queued, lines);
  }

  lemma StateGiven(w: World, k: Slot, now: nat, root: real -> real)
    requires w.server.players[k].connected
    requires EnqueuedAll(w.server.players[k].outbuf, SnapshotLines(w.server, w.server.players[k], now)).Some?
    ensures var s, p := w.server, w.server.players[k];
            Step(w, Line(k, GetState, now), root) ==
            w.(server := WithPlayer(s, k, p.(outbuf := EnqueuedAll(p.outbuf, SnapshotLines(s, p, now)).value)))
  {
    hide SnapshotLines, EnqueuedAll;
  }

  lemma {:induction false} QueuedAre(pending: string, lines: seq<string>)
    requires AllPlain(lines) && EnqueuedAll(pending, lines).Some?
    ensures AllLines(lines) && EnqueuedAll(pending, lines).value == pending + Framed(lines)
    decreases |lines|
  {
    if lines == [] {
      assert pending + "" == pending;
    } else {
      var next := Enqueued(pending, lines[0]).value;
      QueuedAre(next, lines[1..]);
      ConcatAssociates(pending, Frame(lines[0]), Framed(lines[1..]));
    }
  }

  /** From the server's state to the client's table, over a real run. The client of any slot, whatever
      the run before, asks for the state; the server's buffer has room for the snapshot; and then only
      bytes move, in any portions. Once nothing is pending or under way, the client, having handled
      every line that it popped since it connected, shows exactly the players that were admitted. */
  lemma SnapshotArrives(
      clock: real, events: seq<Event>, k: Slot, acts: seq<Act>, now: nat, moves: seq<Act>, start: ClientTable, root: real -> real)
    requires !Run(StartOfServer(clock), events, root).server.players[k].connected
    requires var w := Step(Run(StartOfServer(clock), events, root), Accept, root);
             var c := FirstPeer(w.server.players[k]);
             && StaysOn(w, k, c, acts, root)
             && var (m, d) := Watch(w, k, c, acts, root);
                && EnqueuedAll(m.server.players[k].outbuf, SnapshotLines(m.server, m.server.players[k], now)).Some?
                && var (m1, d1) := Watched(m, k, d, Serve(Line(k, GetState, now)), root);
                   && StaysOn(m1, k, d1, moves, root) && OnlyMoves(moves, k)
                   && var (r, f) := Watch(m1, k, d1, moves, root); r.server.players[k].outbuf == "" && f.wire == ""
    ensures var w := Step(Run(StartOfServer(clock), events, root), Accept, root);
            var (m, d) := Watch(w, k, FirstPeer(w.server.players[k]), acts, root);
            var (m1, d1) := Watched(m, k, d, Serve(Line(k, GetState, now)), root);
            LinesHandled(start, Watch(m1, k, d1, moves, root).1.delivered) == ShownTable(m.server.players)
  {
    ReachableStates(clock, events, root);
    var before := Run(StartOfServer(clock), events, root);
    var w := Step(before, Accept, root);
    var c := FirstPeer(w.server.players[k]);
    hide Run, Step, Inv, Faithful, SnapshotLines, FirstPeer, EnqueuedAll, Watched;
    StaysFromStart(w, k, c, acts, root);
    var first := StartFaithful(before, k, root);
    var queued := WatchFaithful(w, k, c, acts, first, root);
    var (m, d) := Watch(w, k, c, acts, root);
    var lines := SnapshotLines(m.server, m.server.players[k], now);
    SnapshotQueued(m, k, d, now, queued, root);
    var (m1, d1) := Watched(m, k, d, Serve(Line(k, GetState, now)), root);
    MovesFaithful(m1, k, d1, moves, queued + lines, root);
    var (r, f) := Watch(m1, k, d1, moves, root);
    FaithfulDelivers(r, k, f, queued + lines);
    LinesHandledConcat(start, queued, lines);
    InvRecords(m.server);
    SnapshotShown(m.server, m.server.players[k], now, LinesHandled(start, queued));
  }

  lemma FaithfulDelivers(w: World, k: Slot, c: Peer, queued: seq<string>)
    requires Faithful(w, k, c, queued) && w.server.players[k].outbuf == "" && c.wire == ""
    ensures c.delivered == queued
  {
    InFlightDelivers(LinkOf(w.server.players[k], c, queued));
  }

  lemma InvRecords(s: Server)
    requires Inv(s)
    ensures Records(s)
  {
  }
}
