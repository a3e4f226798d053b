/** One direction of a connection, end to end: lines queued by the sender, bytes under way,
    and lines popped by a receiver that drains its buffer after every read
    (src/protocol.c, src/server.c, src/client_network.c). */
module Transport {
  import opened Common
  import opened Protocol

  /** `queued` and `delivered` record the lines accepted from the sender and handed to the
      receiver so far. A broken link is one whose reader gave up because of an overflow. */
  datatype Link = Link(
    outbuf: string, wire: string, inbuf: string, queued: seq<string>, delivered: seq<string>, broken: bool)

  const NEW_LINK := Link("", "", "", [], [], false)

  datatype LinkEvent =
    | Queue(text: string)
    | Send(sends: seq<SendResult>)
    | Receive(count: nat)

  function Least(a: nat, b: nat): nat { if a < b then a else b }

  function LinkStep(l: Link, e: LinkEvent): Link {
    if l.broken then l else
      match e
      case Queue(text) =>
        (match Enqueued(l.outbuf, text)
         case None => l
         case Some(outbuf) => l.(outbuf := outbuf, queued := l.queued + [text]))
      case Send(sends) =>
        var n := FlushCount(|l.outbuf|, sends).0;
        l.(outbuf := l.outbuf[n..], wire := l.wire + l.outbuf[..n])
      case Receive(count) =>
        var n := Least(count, Least(RECV_CHUNK, |l.wire|));
        if |l.inbuf| + n >= INBUF_SIZE then
          l.(broken := true)
        else
          var (lines, left) := Drain(l.inbuf + l.wire[..n]);
          l.(wire := l.wire[n..], inbuf := left, delivered := l.delivered + lines)
  }

  function LinkRun(l: Link, events: seq<LinkEvent>): Link
    decreases |events|
  {
    if events == [] then l else LinkStep(LinkRun(l, events[..|events| - 1]), events[|events| - 1])
  }

  /** The bytes of the lines not yet delivered are exactly those in the two buffers and on the
      wire, in order, and the receiver never holds a complete line. */
  ghost predicate InFlight(l: Link) {
    && !l.broken
    && |l.delivered| <= |l.queued|
    && l.delivered == l.queued[..|l.delivered|]
    && Framed(l.queued[|l.delivered|..]) == l.inbuf + (l.wire + l.outbuf)
    && NewlineAt(l.inbuf) == |l.inbuf|
    && |l.outbuf| <= OUTBUF_SIZE
    && forall k :: 0 <= k < |l.queued| ==> IsLine(l.queued[k])
  }

  ghost predicate QueuesLines(e: LinkEvent) { e.Queue? ==> IsLine(e.text) }

  lemma SliceMore<T>(s: seq<T>, d: nat, m: nat)
    requires d + m <= |s|
    ensures s[..d + m] == s[..d] + s[d..][..m]
    ensures s[d + m..] == s[d..][m..]
  {
  }

  lemma CommonPrefix(a: string, b: string, c: string, d: string)
    requires a + b == c + d && |c| <= |a|
    ensures a[..|c|] == c && a[|c|..] + b == d
  {
    var all := a + b;
    assert c == all[..|c|] && a == all[..|a|];
    assert d == all[|c|..] && b == all[|a|..];
  }

  /** The front part of a framed stream either stays inside the first line, or starts with it. */
  lemma PoppedFramed(received: string, tail: string, lines: seq<string>)
    requires lines != [] && received + tail == Framed(lines) && IsLine(lines[0])
    ensures if |received| <= |lines[0]| then
              Popped(received) == None
            else
              var rest := received[|lines[0]| + 1..];
              Popped(received) == Some((lines[0], rest)) && rest + tail == Framed(lines[1..])
  {
    var frame := Frame(lines[0]);
    var n := |lines[0]|;
    if |received| <= n {
      CommonPrefix(frame, Framed(lines[1..]), received, tail);
      assert forall k :: 0 <= k < |received| ==> received[k] == frame[k];
    } else {
      CommonPrefix(received, tail, frame, Framed(lines[1..]));
      assert received[n] == received[..n + 1][n] == '\n';
      assert forall k :: 0 <= k < n ==> received[k] == received[..n + 1][k] == lines[0][k];
      NewlineAtUnique(received, n);
      assert received[..n] == lines[0];
      assert LineText(lines[0]) == lines[0];
    }
  }

  /** Draining the front part of a framed stream yields some of its lines, in order, and leaves
      a partial line. */
  lemma {:induction false} DrainFramed(received: string, tail: string, lines: seq<string>)
    requires received + tail == Framed(lines)
    requires forall k :: 0 <= k < |lines| ==> IsLine(lines[k])
    ensures var (popped, left) := Drain(received);
            && |popped| <= |lines| && popped == lines[..|popped|]
            && left + tail == Framed(lines[|popped|..])
            && NewlineAt(left) == |left|
    decreases |lines|
  {
    if lines == [] {
      assert received == "";
    } else {
      PoppedFramed(received, tail, lines);
      if |received| > |lines[0]| {
        var rest := received[|lines[0]| + 1..];
        DrainFramed(rest, tail, lines[1..]);
        var popped := Drain(rest).0;
        SliceMore(lines, 1, |popped|);
        assert lines[..1] == [lines[0]];
      }
    }
  }

  /** A buffer without a newline that starts a framed stream is shorter than its first line. */
  lemma PartialLineIsShort(inbuf: string, tail: string, lines: seq<string>)
    requires inbuf + tail == Framed(lines) && NewlineAt(inbuf) == |inbuf|
    requires forall k :: 0 <= k < |lines| ==> IsLine(lines[k])
    ensures |inbuf| < MAX_LINE - 2
  {
    if lines != [] && |inbuf| > |lines[0]| {
      var n := |lines[0]|;
      assert (inbuf + tail)[n] == Frame(lines[0])[n] == '\n';
      assert inbuf[n] == '\n';
    }
  }

  lemma QueueKeepsInFlight(l: Link, text: string)
    requires InFlight(l) && IsLine(text)
    ensures InFlight(LinkStep(l, Queue(text)))
  {
    hide Framed, NewlineAt;
    var r := LinkStep(l, Queue(text));
    if r != l {
      var pending := l.queued[|l.delivered|..];
      assert r.queued[|l.delivered|..] == pending + [text];
      FramedAppend(pending, text);
      assert r.inbuf + (r.wire + r.outbuf) == (l.inbuf + (l.wire + l.outbuf)) + Frame(text);
      assert r.queued[..|l.delivered|] == l.queued[..|l.delivered|];
    }
  }

  lemma SendKeepsInFlight(l: Link, sends: seq<SendResult>)
    requires InFlight(l)
    ensures InFlight(LinkStep(l, Send(sends)))
  {
    var n := FlushCount(|l.outbuf|, sends).0;
    assert (l.wire + l.outbuf[..n]) + l.outbuf[n..] == l.wire + l.outbuf;
  }

  lemma ReceiveKeepsInFlight(l: Link, count: nat)
    requires InFlight(l)
    ensures InFlight(LinkStep(l, Receive(count)))
  {
    hide Drain, Framed, NewlineAt;
    var n := Least(count, Least(RECV_CHUNK, |l.wire|));
    var pending := l.queued[|l.delivered|..];
    PartialLineIsShort(l.inbuf, l.wire + l.outbuf, pending);
    var received := l.inbuf + l.wire[..n];
    var tail := l.wire[n..] + l.outbuf;
    assert received + tail == l.inbuf + (l.wire + l.outbuf);
    DrainFramed(received, tail, pending);
    var (lines, left) := Drain(received);
    SliceMore(l.queued, |l.delivered|, |lines|);
    var delivered := l.delivered + lines;
    assert delivered == l.queued[..|delivered|];
    assert left + tail == Framed(l.queued[|delivered|..]);
    assert LinkStep(l, Receive(count)) == l.(wire := l.wire[n..], inbuf := left, delivered := delivered);
  }

  lemma {:induction false} RunKeepsInFlight(events: seq<LinkEvent>)
    requires forall k :: 0 <= k < |events| ==> QueuesLines(events[k])
    ensures InFlight(LinkRun(NEW_LINK, events))
    decreases |events|
  {
    if events != [] {
      var before := events[..|events| - 1];
      var e := events[|events| - 1];
      assert forall k :: 0 <= k < |before| ==> before[k] == events[k];
      RunKeepsInFlight(before);
      var l := LinkRun(NEW_LINK, before);
      assert QueuesLines(e);
      match e
      case Queue(text) => QueueKeepsInFlight(l, text);
      case Send(sends) => SendKeepsInFlight(l, sends);
      case Receive(count) => ReceiveKeepsInFlight(l, count);
    }
  }


  lemma FramedHasNewline(lines: seq<string>)
    requires lines != []
    ensures NewlineAt(Framed(lines)) < |Framed(lines)|
  {
    assert Framed(lines)[|lines[0]|] == '\n';
  }

  /** Framing is transparent. However the bytes are split by partial sends and by reads of up to
      256 bytes, the reader never overflows, the lines it pops are the first of the queued lines,
      unaltered, and once nothing is pending or under way they are all of them. */
  lemma FramingEndToEnd(events: seq<LinkEvent>)
    requires forall k :: 0 <= k < |events| ==> QueuesLines(events[k])
    ensures var l := LinkRun(NEW_LINK, events);
            && !l.broken
            && |l.inbuf| < MAX_LINE - 2
            && |l.delivered| <= |l.queued| && l.delivered == l.queued[..|l.delivered|]
            && (l.outbuf == "" && l.wire == "" ==> l.delivered == l.queued && l.inbuf == "")
  {
    RunKeepsInFlight(events);
    InFlightDelivers(LinkRun(NEW_LINK, events));
  }

  /** What the invariant says about the receiver. */
  lemma InFlightDelivers(l: Link)
    requires InFlight(l)
    ensures |l.inbuf| < MAX_LINE - 2
    ensures l.outbuf == "" && l.wire == "" ==> l.delivered == l.queued && l.inbuf == ""
  {
    var pending := l.queued[|l.delivered|..];
    PartialLineIsShort(l.inbuf, l.wire + l.outbuf, pending);
    if l.outbuf == "" && l.wire == "" {
      assert l.inbuf + ("" + "") == l.inbuf;
      if pending != [] {
        FramedHasNewline(pending);
      }
      assert l.queued[..|l.queued|] == l.queued;
    }
  }

  // ---------------------------------------------------------------- the same, in place

  /** A connection in place: the sender's and the receiver's buffers, with the bytes on the wire
      between them, do what the link does, event by event. */
  method Carry(events: seq<LinkEvent>) returns (sender: Buffers, receiver: Buffers, wire: string,
                                                queued: seq<string>, delivered: seq<string>, broken: bool)
    ensures fresh(sender) && fresh(receiver) && sender.Valid() && receiver.Valid()
    ensures Link(sender.Pending(), wire, receiver.Received(), queued, delivered, broken) == LinkRun(NEW_LINK, events)
    ensures (forall k :: 0 <= k < |events| ==> QueuesLines(events[k])) ==>
              !broken && |delivered| <= |queued| && delivered == queued[..|delivered|]
  {
    hide LinkRun, FlushCount, Drain;
    sender := new Buffers();
    receiver := new Buffers();
    wire, queued, delivered, broken := "", [], [], false;
    LinkRunNothing();
    for i := 0 to |events|
      invariant fresh(sender) && fresh(receiver) && fresh(sender.outbuf) && fresh(sender.inbuf)
      invariant fresh(receiver.outbuf) && fresh(receiver.inbuf)
      invariant sender.Valid() && receiver.Valid() && sender != receiver
      invariant {sender.outbuf, sender.inbuf} !! {receiver.outbuf, receiver.inbuf}
      invariant Link(sender.Pending(), wire, receiver.Received(), queued, delivered, broken) == LinkRun(NEW_LINK, events[..i])
    {
      ghost var l := LinkRun(NEW_LINK, events[..i]);
      LinkRunNext(events, i);
      if !broken {
        match events[i] {
          case Queue(text) =>
            var ok := sender.QueueLine(text);
            queued := if ok then queued + [text] else queued;
          case Send(sends) =>
            ghost var before := sender.Pending();
            var outcome, sent := sender.FlushPlayerOutput(sends);
            assert sent == before[..|sent|] && sender.Pending() == before[|sent|..];
            wire := wire + sent;
          case Receive(count) =>
            var n := Least(count, Least(RECV_CHUNK, |wire|));
            if receiver.inbufUsed >= INBUF_SIZE {
              broken := true;
            } else if n == 0 {
              assert receiver.Received() + wire[..0] == receiver.Received();
              var lines := receiver.DrainLines();
              delivered := delivered + lines;
            } else {
              var rc, lines := receiver.ReadAndDrain(Received(n), wire[..n]);
              broken, delivered := rc <= 0, delivered + lines;
              wire := if rc <= 0 then wire else wire[n..];
            }
        }
      }
    }
    assert events[..|events|] == events;
    if forall k :: 0 <= k < |events| ==> QueuesLines(events[k]) {
      RunKeepsInFlight(events);
    }
  }

  lemma LinkRunNothing()
    ensures LinkRun(NEW_LINK, []) == NEW_LINK
  {
  }

  lemma LinkRunNext(events: seq<LinkEvent>, i: nat)
    requires i < |events|
    ensures LinkRun(NEW_LINK, events[..i + 1]) == LinkStep(LinkRun(NEW_LINK, events[..i]), events[i])
  {
    assert events[..i + 1][..i] == events[..i];
  }
}
