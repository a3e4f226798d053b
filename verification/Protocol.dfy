/** Newline framing over a byte stream (src/protocol.c): what queuing, reading and popping
    do to the bytes of a buffer, and the two fixed buffers of a connection that do it in place. */
module Protocol {
  import opened Common

  const RECV_CHUNK := 256

  function Frame(text: string): string { text + "\n" }

  function Framed(lines: seq<string>): string {
    if lines == [] then "" else Frame(lines[0]) + Framed(lines[1..])
  }

  /** A text the framing can carry: short enough for `queue_line`, without the delimiter or
      the terminator, and without a final carriage return, which the reader would strip. */
  predicate IsLine(text: string) {
    && |text| < MAX_LINE - 2
    && (forall k :: 0 <= k < |text| ==> text[k] != '\n' && text[k] != '\0')
    && (text != "" ==> text[|text| - 1] != '\r')
  }

  /** The pending output after `queue_line`, or None when it refuses the line. */
  function Enqueued(pending: string, text: string): Option<string> {
    if |text| >= MAX_LINE - 2 || |pending| + |text| + 1 > OUTBUF_SIZE then
      None
    else
      Some(pending + Frame(text))
  }

  /** Several lines queued one after the other; the first refusal fails the whole. */
  function EnqueuedAll(pending: string, texts: seq<string>): Option<string>
    decreases |texts|
  {
    if texts == [] then
      Some(pending)
    else
      match Enqueued(pending, texts[0])
      case None => None
      case Some(pending') => EnqueuedAll(pending', texts[1..])
  }

  lemma {:induction false} EnqueuedAllConcat(pending: string, a: seq<string>, b: seq<string>)
    ensures EnqueuedAll(pending, a + b) ==
            match EnqueuedAll(pending, a) case None => None case Some(pending') => EnqueuedAll(pending', b)
    decreases |a|
  {
    if a == [] {
      assert a + b == b;
    } else {
      assert (a + b)[1..] == a[1..] + b && (a + b)[0] == a[0];
      if Enqueued(pending, a[0]).Some? {
        EnqueuedAllConcat(Enqueued(pending, a[0]).value, a[1..], b);
      }
    }
  }

  lemma EnqueuedAllOne(pending: string, line: string)
    ensures EnqueuedAll(pending, [line]) == Enqueued(pending, line)
  {
  }

  lemma EnqueuedNothing(pending: string)
    ensures EnqueuedAll(pending, []) == Some(pending)
  {
  }

  lemma EnqueuedAllCons(pending: string, line: string, rest: seq<string>)
    ensures EnqueuedAll(pending, [line] + rest) ==
            match Enqueued(pending, line) case None => None case Some(pending') => EnqueuedAll(pending', rest)
  {
    assert ([line] + rest)[1..] == rest;
  }

  /** Index of the first newline, or the length when there is none. */
  function NewlineAt(s: string): (n: nat)
    ensures n <= |s|
    ensures n < |s| ==> s[n] == '\n'
    ensures forall k :: 0 <= k < n ==> s[k] != '\n'
  {
    if s == "" || s[0] == '\n' then 0 else
      var m := NewlineAt(s[1..]);
      assert forall k :: 0 < k < m + 1 ==> s[k] == s[1..][k - 1];
      m + 1
  }

  /** What `pop_line` copies out of the bytes before a newline into a buffer of MAX_LINE bytes. */
  function LineText(raw: string): string {
    var len := if raw != "" && raw[|raw| - 1] == '\r' then |raw| - 1 else |raw|;
    raw[..if len >= MAX_LINE then MAX_LINE - 1 else len]
  }

  /** The first complete line of a receive buffer and the bytes after it. */
  function Popped(received: string): Option<(string, string)> {
    var n := NewlineAt(received);
    if n == |received| then None else Some((LineText(received[..n]), received[n + 1..]))
  }

  /** All complete lines, and the partial line that stays. */
  function Drain(received: string): (seq<string>, string)
    decreases |received|
  {
    match Popped(received)
    case None => ([], received)
    case Some((line, rest)) =>
      var (lines, left) := Drain(rest);
      ([line] + lines, left)
  }

  lemma NewlineAtUnique(s: string, n: nat)
    requires n < |s| && s[n] == '\n' && forall k :: 0 <= k < n ==> s[k] != '\n'
    ensures NewlineAt(s) == n
  {
  }

  lemma {:induction false} FramedAppend(lines: seq<string>, line: string)
    ensures Framed(lines + [line]) == Framed(lines) + Frame(line)
  {
    if lines == [] {
      assert [line][1..] == [];
      assert Framed([line]) == Frame(line) + Framed([]);
    } else {
      assert (lines + [line])[1..] == lines[1..] + [line];
      FramedAppend(lines[1..], line);
    }
  }

  /** Queuing adds exactly the framed text behind what is pending, or fails for lack of room. */
  lemma {:induction false} EnqueuedAllAppends(pending: string, texts: seq<string>)
    requires forall k :: 0 <= k < |texts| ==> |texts[k]| < MAX_LINE - 2
    ensures EnqueuedAll(pending, texts) ==
            if texts == [] || |pending| + |Framed(texts)| <= OUTBUF_SIZE then Some(pending + Framed(texts)) else None
    decreases |texts|
  {
    if texts == [] {
      assert pending + "" == pending;
    } else {
      var pending' := pending + Frame(texts[0]);
      assert pending' + Framed(texts[1..]) == pending + Framed(texts);
      EnqueuedAllAppends(pending', texts[1..]);
    }
  }

  lemma ConcatAssociates(a: string, b: string, c: string)
    ensures (a + b) + c == a + (b + c)
  {
  }

  datatype SendResult = Sent(bytes: nat) | SendBlocked | SendFailed
  datatype FlushOutcome = Flushed | Blocked | Broken

  /** Bytes taken from `used` pending ones by a sequence of `send` results, and the outcome.
      `send` never reports more than it was given; when the sequence is over the socket blocks. */
  function FlushCount(used: nat, sends: seq<SendResult>): (r: (nat, FlushOutcome))
    ensures r.0 <= used
    ensures r.1 == Flushed <==> r.0 == used
    decreases |sends|
  {
    if used == 0 then (0, Flushed)
    else if sends == [] || sends[0] == SendBlocked then (0, Blocked)
    else if sends[0] == SendFailed || sends[0].bytes == 0 then (0, Broken)
    else
      var n := if sends[0].bytes > used then used else sends[0].bytes;
      var (m, outcome) := FlushCount(used - n, sends[1..]);
      (n + m, outcome)
  }

  /** Bytes that a sequence of `send` results reports. */
  function TotalSent(sends: seq<SendResult>): nat {
    if sends == [] then 0 else TotalSent(sends[..|sends| - 1]) + if sends[|sends| - 1].Sent? then sends[|sends| - 1].bytes else 0
  }

  /** The first `k` results took something each, but not everything, and the next one failed. */
  ghost predicate BreaksAt(used: nat, sends: seq<SendResult>, k: nat) {
    && k < |sends| && (sends[k] == SendFailed || sends[k] == Sent(0))
    && TotalSent(sends[..k]) < used
    && forall j :: 0 <= j < k ==> sends[j].Sent? && sends[j].bytes > 0
  }

  lemma {:induction false} TotalSentTail(sends: seq<SendResult>)
    requires sends != [] && sends[0].Sent?
    ensures TotalSent(sends) == sends[0].bytes + TotalSent(sends[1..])
  {
    var n := |sends| - 1;
    if n == 0 {
      assert sends[..0] == [] && sends[1..] == [];
    } else {
      TotalSentTail(sends[..n]);
      assert sends[..n][1..] == sends[1..][..n - 1];
    }
  }

  /** A flush breaks the connection exactly when some `send` fails, or takes nothing, while bytes are
      still pending and before one blocks. */
  lemma {:induction false} FlushBreaksIff(used: nat, sends: seq<SendResult>)
    ensures FlushCount(used, sends).1 == Broken <==> exists k: nat :: BreaksAt(used, sends, k)
    decreases |sends|
  {
    if used > 0 && sends != [] && sends[0].Sent? && 0 < sends[0].bytes < used {
      var left, rest := used - sends[0].bytes, sends[1..];
      FlushBreaksIff(left, rest);
      if k: nat :| BreaksAt(left, rest, k) {
        BreaksLater(used, sends, k);
      }
      if k: nat :| BreaksAt(used, sends, k) {
        assert k != 0;
        BreaksLater(used, sends, k - 1);
      }
    } else {
      BreaksAtOnce(used, sends);
    }
  }

  lemma BreaksLater(used: nat, sends: seq<SendResult>, k: nat)
    requires sends != [] && sends[0].Sent? && 0 < sends[0].bytes < used
    ensures BreaksAt(used, sends, k + 1) <==> BreaksAt(used - sends[0].bytes, sends[1..], k)
  {
    if k + 1 < |sends| {
      assert sends[..k + 1][0] == sends[0] && sends[..k + 1][1..] == sends[1..][..k];
      TotalSentTail(sends[..k + 1]);
      assert forall j :: 0 <= j < k ==> sends[1..][j] == sends[j + 1];
    }
  }

  lemma BreaksAtOnce(used: nat, sends: seq<SendResult>)
    requires !(used > 0 && sends != [] && sends[0].Sent? && 0 < sends[0].bytes < used)
    ensures FlushCount(used, sends).1 == Broken <==> exists k: nat :: BreaksAt(used, sends, k)
  {
    if used > 0 && sends != [] && (sends[0] == SendFailed || sends[0] == Sent(0)) {
      assert sends[..0] == [];
      assert BreaksAt(used, sends, 0);
    }
    if k: nat :| BreaksAt(used, sends, k) && k > 0 {
      assert sends[..k][0] == sends[0];
      TotalSentTail(sends[..k]);
    }
  }

  datatype ReadResult = Received(count: nat) | ReadBlocked | ReadClosed | ReadFailed

  /** The two fixed buffers of one connection. */
  class Buffers {
    const inbuf: array<char>
    var inbufUsed: nat
    const outbuf: array<char>
    var outbufUsed: nat

    ghost predicate Valid()
      reads this
    {
      && inbuf != outbuf
      && inbuf.Length == INBUF_SIZE && inbufUsed <= INBUF_SIZE
      && outbuf.Length == OUTBUF_SIZE && outbufUsed <= OUTBUF_SIZE
    }

    ghost function Received(): string
      requires Valid()
      reads this, inbuf
    {
      inbuf[..inbufUsed]
    }

    ghost function Pending(): string
      requires Valid()
      reads this, outbuf
    {
      outbuf[..outbufUsed]
    }

    constructor ()
      ensures Valid() && Received() == "" && Pending() == ""
      ensures fresh(inbuf) && fresh(outbuf)
    {
      inbuf, inbufUsed := new char[INBUF_SIZE](_ => '\0'), 0;
      outbuf, outbufUsed := new char[OUTBUF_SIZE](_ => '\0'), 0;
    }

    method QueueLine(text: string) returns (ok: bool)
      requires Valid()
      modifies this`outbufUsed, outbuf
      ensures Valid() && Received() == old(Received())
      ensures ok == Enqueued(old(Pending()), text).Some?
      ensures Pending() == if ok then old(Pending()) + Frame(text) else old(Pending())
    {
      if |text| >= MAX_LINE - 2 {
        return false;
      }
      var line := Frame(text);
      if outbufUsed + |line| > OUTBUF_SIZE {
        return false;
      }
      var used := outbufUsed;
      forall k | 0 <= k < |line| {
        outbuf[used + k] := line[k];
      }
      outbufUsed := used + |line|;
      assert outbuf[..used] == old(outbuf[..used]);
      assert outbuf[used..used + |line|] == line;
      assert outbuf[..used + |line|] == outbuf[..used] + outbuf[used..used + |line|];
      return true;
    }

    /** Takes `sent` bytes from the front and moves those behind them down. */
    method TakeOutput(sent: nat) returns (bytes: string)
      requires Valid() && sent <= outbufUsed
      modifies this`outbufUsed, outbuf
      ensures Valid() && outbufUsed == old(outbufUsed) - sent
      ensures |bytes| == sent && bytes + Pending() == old(Pending())
    {
      bytes := outbuf[..sent];
      var remain := outbufUsed - sent;
      forall k | 0 <= k < remain {
        outbuf[k] := outbuf[sent + k];
      }
      outbufUsed := remain;
      assert outbuf[..remain] == old(outbuf[..outbufUsed])[sent..];
    }

    /** Sends from the front of the buffer and moves the rest down, until the buffer is empty
        or the socket stops. `wire` is what left. */
    method FlushPlayerOutput(sends: seq<SendResult>) returns (outcome: FlushOutcome, wire: string)
      requires Valid()
      modifies this`outbufUsed, outbuf
      ensures Valid() && Received() == old(Received())
      ensures (|wire|, outcome) == FlushCount(old(outbufUsed), sends)
      ensures wire + Pending() == old(Pending())
    {
      wire := "";
      var rest := sends;
      ghost var taken := FlushCount(outbufUsed, sends);
      while outbufUsed > 0
        invariant Valid()
        invariant wire + Pending() == old(Pending())
        invariant taken == (|wire| + FlushCount(outbufUsed, rest).0, FlushCount(outbufUsed, rest).1)
        decreases |rest|
      {
        if rest == [] || rest[0] == SendBlocked {
          return Blocked, wire;
        }
        if rest[0] == SendFailed || rest[0].bytes == 0 {
          return Broken, wire;
        }
        var bytes := TakeOutput(if rest[0].bytes > outbufUsed then outbufUsed else rest[0].bytes);
        ConcatAssociates(wire, bytes, Pending());
        wire := wire + bytes;
        rest := rest[1..];
      }
      outcome := Flushed;
    }

    /** Appends what one `recv` of at most RECV_CHUNK bytes returned. The result is that of the
        C function: bytes read, 1 when nothing was available, 0 at end of stream, -1 on failure
        or when the buffer would fill up. */
    method ReadIntoPlayerBuffer(result: ReadResult, bytes: string) returns (rc: int)
      requires Valid()
      requires result.Received? ==> 0 < result.count <= RECV_CHUNK && |bytes| == result.count
      modifies this`inbufUsed, inbuf
      ensures Valid() && Pending() == old(Pending())
      ensures rc == (match result
                     case Received(n) => if |old(Received())| + n >= INBUF_SIZE then -1 else n
                     case ReadBlocked => 1
                     case ReadClosed => 0
                     case ReadFailed => -1)
      ensures Received() == if result.Received? && rc > 0 then old(Received()) + bytes else old(Received())
    {
      match result {
        case ReadClosed => return 0;
        case ReadBlocked => return 1;
        case ReadFailed => return -1;
        case Received(n) =>
          if inbufUsed + n >= INBUF_SIZE {
            return -1;
          }
          var used := inbufUsed;
          forall k | 0 <= k < n {
            inbuf[used + k] := bytes[k];
          }
          inbufUsed := used + n;
          assert inbuf[..used] == old(inbuf[..used]);
          assert inbuf[used..used + n] == bytes;
          assert inbuf[..used + n] == inbuf[..used] + inbuf[used..used + n];
          return n;
      }
    }

    /** Moves the bytes from `from` on to the front. */
    method ShiftInput(from: nat)
      requires Valid() && from <= inbufUsed
      modifies this`inbufUsed, inbuf
      ensures Valid() && Pending() == old(Pending())
      ensures Received() == old(Received())[from..]
    {
      var remain := inbufUsed - from;
      forall k | 0 <= k < remain {
        inbuf[k] := inbuf[from + k];
      }
      inbufUsed := remain;
      assert inbuf[..remain] == old(inbuf[..inbufUsed])[from..];
    }

    method PopLine() returns (line: Option<string>)
      requires Valid()
      modifies this`inbufUsed, inbuf
      ensures Valid() && Pending() == old(Pending())
      ensures match Popped(old(Received()))
              case None => line == None && Received() == old(Received())
              case Some((text, rest)) => line == Some(text) && Received() == rest
    {
      var i := 0;
      while i < inbufUsed
        invariant 0 <= i <= inbufUsed == old(inbufUsed) && inbuf[..] == old(inbuf[..])
        invariant Pending() == old(Pending())
        invariant forall k :: 0 <= k < i ==> inbuf[k] != '\n'
      {
        if inbuf[i] == '\n' {
          ghost var received := Received();
          NewlineAtUnique(received, i);
          var len := i;
          if len > 0 && inbuf[len - 1] == '\r' {
            len := len - 1;
          }
          if len >= MAX_LINE {
            len := MAX_LINE - 1;
          }
          var out := inbuf[..len];
          assert out == LineText(received[..i]);
          ShiftInput(i + 1);
          return Some(out);
        }
        i := i + 1;
      }
      assert Received() == old(Received());
      return None;
    }

    /** Pops lines until none is complete, as both ends do after every read. */
    method DrainLines() returns (lines: seq<string>)
      requires Valid()
      modifies this`inbufUsed, inbuf
      ensures Valid() && Pending() == old(Pending())
      ensures (lines, Received()) == Drain(old(Received()))
    {
      hide Popped;
      lines := [];
      ghost var received := Received();
      assert [] + Drain(received).0 == Drain(received).0;
      var more := true;
      while more
        invariant Valid() && Pending() == old(Pending())
        invariant Drain(received) == (lines + Drain(Received()).0, Drain(Received()).1)
        invariant !more ==> Popped(Received()) == None
        decreases more, inbufUsed
      {
        ghost var before := Received();
        PoppedShorter(before);
        var line := PopLine();
        match line {
          case None => more := false;
          case Some(text) =>
            assert lines + ([text] + Drain(Received()).0) == (lines + [text]) + Drain(Received()).0;
            lines := lines + [text];
        }
      }
      assert lines + [] == lines;
    }

    /** One read, and all the lines that it completes. */
    method ReadAndDrain(result: ReadResult, bytes: string) returns (rc: int, lines: seq<string>)
      requires Valid()
      requires result.Received? ==> 0 < result.count <= RECV_CHUNK && |bytes| == result.count
      modifies this`inbufUsed, inbuf
      ensures Valid() && Pending() == old(Pending())
      ensures rc == (match result
                     case Received(n) => if |old(Received())| + n >= INBUF_SIZE then -1 else n
                     case ReadBlocked => 1
                     case ReadClosed => 0
                     case ReadFailed => -1)
      ensures if rc <= 0 then lines == [] && Received() == old(Received())
              else (lines, Received()) == Drain(old(Received()) + if result.Received? then bytes else "")
    {
      hide Drain;
      rc := ReadIntoPlayerBuffer(result, bytes);
      lines := [];
      if rc > 0 {
        assert old(Received()) + "" == old(Received());
        lines := DrainLines();
      }
    }
  }

  lemma PoppedShorter(received: string)
    ensures Popped(received).Some? ==> |Popped(received).value.1| < |received|
    ensures Drain(received) == match Popped(received)
                               case None => ([], received)
                               case Some((line, rest)) => ([line] + Drain(rest).0, Drain(rest).1)
  {
  }
}
