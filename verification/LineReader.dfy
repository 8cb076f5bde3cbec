/**
 The line reader of the stratum endpoint: a buffered socket whose reads may be
 cancelled at any wait and re-entered, and the connection's loop over it.
 */
module LineReader {
  import opened Prelude

  type Bytes = seq<Byte>

  const NEWLINE: Byte := 10
  const MAX_LINE_BYTES: nat := 8192

  // ---------------------------------------------------------------------------
  // What a peer sends, and the lines in it
  // ---------------------------------------------------------------------------

  // What a wait for bytes ends with. An empty read is the peer closing.
  datatype Event = Read(bytes: Bytes) | Cancel | Fail

  // Waiting: nothing has closed the connection.
  datatype Ending = Eof | TooLong | Failed | Waiting

  function Stream(script: seq<Event>): Bytes {
    if script == [] || script[0].Fail? || script[0] == Read([]) then []
    else if script[0].Cancel? then Stream(script[1..])
    else script[0].bytes + Stream(script[1..])
  }

  function EndOf(script: seq<Event>): Ending {
    if script == [] then Waiting
    else if script[0].Fail? then Failed
    else if script[0] == Read([]) then Eof
    else EndOf(script[1..])
  }

  // While nothing ends it: reads that hold bytes, and cancelled waits.
  predicate Live(script: seq<Event>) {
    forall i :: 0 <= i < |script| ==> script[i].Cancel? || (script[i].Read? && script[i].bytes != [])
  }

  // The first empty read or error ends the stream, under its own name, with what
  // came before and nothing after.
  lemma {:induction false} EndIsTheFirst(live: seq<Event>, end: Event, after: seq<Event>)
    requires Live(live) && (end.Fail? || end == Read([]))
    ensures EndOf(live + ([end] + after)) == if end.Fail? then Failed else Eof
    ensures EndOf(live) == Waiting
    ensures Stream(live + ([end] + after)) == Stream(live)
  {
    if live == [] {
      assert live + ([end] + after) == [end] + after;
    } else {
      assert (live + ([end] + after))[1..] == live[1..] + ([end] + after);
      EndIsTheFirst(live[1..], end, after);
    }
  }

  // And what came before is the bytes of the reads, in order.
  lemma {:induction false} StreamAppends(live: seq<Event>, bytes: Bytes)
    requires Live(live) && bytes != []
    ensures Stream(live + [Read(bytes)]) == Stream(live) + bytes
  {
    if live == [] {
      assert live + [Read(bytes)] == [Read(bytes)];
      assert [Read(bytes)][1..] == [];
    } else {
      assert (live + [Read(bytes)])[1..] == live[1..] + [Read(bytes)];
      StreamAppends(live[1..], bytes);
    }
  }

  // Where the first newline is, or the length when there is none.
  function Newline(bytes: Bytes): (i: nat)
    ensures i <= |bytes|
    ensures i < |bytes| ==> bytes[i] == NEWLINE
    ensures forall k :: 0 <= k < i ==> bytes[k] != NEWLINE
  {
    if bytes == [] || bytes[0] == NEWLINE then 0 else 1 + Newline(bytes[1..])
  }

  datatype Framed = Framed(lines: seq<Bytes>, overlong: bool)

  // A stream cut at its newlines, up to the first line that is too long.
  function Frames(bytes: Bytes): Framed {
    var i := Newline(bytes);
    if i > MAX_LINE_BYTES then Framed([], true)
    else if i == |bytes| then Framed([], false)
    else
      var rest := Frames(bytes[i + 1..]);
      Framed([bytes[..i + 1]] + rest.lines, rest.overlong)
  }

  function Joined(lines: seq<Bytes>): Bytes {
    if lines == [] then [] else lines[0] + Joined(lines[1..])
  }

  predicate Whole(line: Bytes) {
    |line| > 0 && Newline(line) == |line| - 1 <= MAX_LINE_BYTES
  }

  lemma NewlineOf(head: Bytes, tail: Bytes)
    requires Newline(head) == |head| || Newline(head) == |head| - 1
    ensures Newline(head) == |head| ==> Newline(head + tail) == |head| + Newline(tail)
    ensures Newline(head) == |head| - 1 ==> Newline(head + tail) == |head| - 1
  {
    assert forall k :: 0 <= k < |head| ==> (head + tail)[k] == head[k];
    assert forall k :: 0 <= k < |tail| ==> (head + tail)[|head| + k] == tail[k];
    assert forall k :: |head| <= k < |head| + |tail| ==> (head + tail)[k] == tail[k - |head|];
  }

  lemma OneMoreLine(line: Bytes, tail: Bytes)
    requires Whole(line)
    ensures Frames(line + tail) == Framed([line] + Frames(tail).lines, Frames(tail).overlong)
  {
    NewlineOf(line, tail);
    assert (line + tail)[..|line|] == line && (line + tail)[|line|..] == tail;
  }

  // The cut is the only way to write a stream as whole lines and an end that
  // holds no further line: both directions.
  lemma {:induction false} FramesOf(lines: seq<Bytes>, rest: Bytes)
    requires forall line :: line in lines ==> Whole(line)
    requires Newline(rest) > MAX_LINE_BYTES || Newline(rest) == |rest|
    ensures Frames(Joined(lines) + rest) == Framed(lines, Newline(rest) > MAX_LINE_BYTES)
  {
    if lines == [] {
      assert Joined(lines) + rest == rest;
    } else {
      var line, tail := lines[0], Joined(lines[1..]) + rest;
      assert Joined(lines) + rest == line + tail;
      assert line in lines;
      OneMoreLine(line, tail);
      FramesOf(lines[1..], rest);
      assert lines == [line] + lines[1..];
    }
  }

  lemma {:induction false} FramesCut(bytes: Bytes) returns (rest: Bytes)
    ensures forall line :: line in Frames(bytes).lines ==> Whole(line)
    ensures bytes == Joined(Frames(bytes).lines) + rest
    ensures if Frames(bytes).overlong then Newline(rest) > MAX_LINE_BYTES else Newline(rest) == |rest| <= MAX_LINE_BYTES
  {
    var i := Newline(bytes);
    if i > MAX_LINE_BYTES || i == |bytes| {
      rest := bytes;
    } else {
      var line, tail := bytes[..i + 1], bytes[i + 1..];
      rest := FramesCut(tail);
      WholeLine(bytes);
      JoinedFirst(line, Frames(tail).lines, rest);
      assert bytes == line + tail;
    }
  }

  lemma JoinedFirst(line: Bytes, lines: seq<Bytes>, rest: Bytes)
    ensures Joined([line] + lines) + rest == line + (Joined(lines) + rest)
  {
    assert ([line] + lines)[1..] == lines;
    assert (line + Joined(lines)) + rest == line + (Joined(lines) + rest);
  }

  lemma WholeLine(bytes: Bytes)
    requires Newline(bytes) < |bytes| && Newline(bytes) <= MAX_LINE_BYTES
    ensures Whole(bytes[..Newline(bytes) + 1])
  {
    var i := Newline(bytes);
    var line := bytes[..i + 1];
    assert forall k :: 0 <= k < |line| ==> line[k] == bytes[k];
  }

  // How the bytes arrive does not change the stream: a cancelled wait vanishes
  // and a read may be split anywhere.
  lemma {:induction false} ArrivalDoesNotMatter(before: seq<Event>, a: Bytes, b: Bytes, after: seq<Event>)
    requires a != [] && b != []
    ensures Stream(before + ([Read(a), Cancel, Read(b)] + after)) == Stream(before + ([Read(a + b)] + after))
    ensures EndOf(before + ([Read(a), Cancel, Read(b)] + after)) == EndOf(before + ([Read(a + b)] + after))
  {
    var s, t := [Read(a), Cancel, Read(b)] + after, [Read(a + b)] + after;
    var s1, s2 := [Cancel, Read(b)] + after, [Read(b)] + after;
    assert s[1..] == s1 && s1[1..] == s2 && s2[1..] == after && t[1..] == after;
    assert Stream(s) == a + Stream(s1) && Stream(s1) == Stream(s2) == b + Stream(after);
    assert t[0] == Read(a + b) && a + b != [];
    assert a + (b + Stream(after)) == (a + b) + Stream(after);
    assert EndOf(s) == EndOf(s1) == EndOf(s2) == EndOf(after);
    SameAfter(before, s, t);
  }

  lemma {:induction false} SameAfter(before: seq<Event>, s: seq<Event>, t: seq<Event>)
    requires Stream(s) == Stream(t) && EndOf(s) == EndOf(t)
    ensures Stream(before + s) == Stream(before + t) && EndOf(before + s) == EndOf(before + t)
  {
    if before == [] {
      assert before + s == s && before + t == t;
    } else {
      assert (before + s)[1..] == before[1..] + s && (before + t)[1..] == before[1..] + t;
      SameAfter(before[1..], s, t);
    }
  }

  // ---------------------------------------------------------------------------
  // The reader
  // ---------------------------------------------------------------------------

  datatype Fill = Available | Interrupted | Stopped(ending: Ending)

  datatype Outcome = Complete | Cancelled | Ended(ending: Ending)

  // Whether no read hands over more than the reader's buffer holds.
  ghost predicate Within(script: seq<Event>, capacity: nat) {
    forall i :: 0 <= i < |script| && script[i].Read? ==> |script[i].bytes| <= capacity
  }

  class Connection {
    const capacity: nat
    var buffered: Bytes
    var script: seq<Event>
    var line: Bytes

    constructor (capacity: nat, script: seq<Event>)
      ensures buffered == [] && line == [] && this.script == script && this.capacity == capacity
    {
      this.capacity, this.buffered, this.line, this.script := capacity, [], [], script;
    }

    // Everything the peer has sent that has not been handed on as a line.
    ghost function Unread(): Bytes
      reads this
    {
      line + (buffered + Stream(script))
    }

    ghost predicate Bounded()
      reads this
    {
      |buffered| <= capacity && Within(script, capacity)
    }

    // Between reads the line is a part of one, and short enough.
    ghost predicate Resumable()
      reads this
    {
      Newline(line) == |line| <= MAX_LINE_BYTES
    }

    // Wait for bytes. A cancelled wait consumes none, and no bytes means the
    // peer closed.
    method FillBuf() returns (fill: Fill)
      requires Bounded()
      modifies this`buffered, this`script
      ensures Bounded() && |script| <= |old(script)|
      ensures buffered + Stream(script) == old(buffered + Stream(script)) && EndOf(script) == old(EndOf(script))
      ensures fill.Available? && buffered == [] ==> Stream(script) == [] && EndOf(script) == Eof
      ensures fill.Interrupted? ==> |script| < |old(script)|
      ensures fill.Stopped? ==> buffered == [] && Stream(script) == [] && EndOf(script) == fill.ending != TooLong
    {
      if buffered != [] {
        return Available;
      }
      if script == [] {
        return Stopped(Waiting);
      }
      match script[0] {
        case Fail => return Stopped(Failed);
        case Cancel =>
          script := script[1..];
          return Interrupted;
        case Read(bytes) =>
          if bytes != [] {
            buffered, script := bytes, script[1..];
          }
          return Available;
      }
    }

    // Take bytes up to a newline, or all there are, off the buffer.
    method Take() returns (complete: bool)
      requires Resumable() && Bounded() && buffered != []
      modifies this`buffered, this`line
      ensures Unread() == old(Unread()) && |buffered| < |old(buffered)|
      ensures |line| <= MAX_LINE_BYTES + capacity
      ensures line == old(line) + old(buffered)[..|line| - |old(line)|]
      ensures Newline(line) == if complete then |line| - 1 else |line|
    {
      var end := Newline(buffered);
      complete := end < |buffered|;
      var taken := if complete then end + 1 else end;
      var head, tail := buffered[..taken], buffered[taken..];
      assert line + (buffered + Stream(script)) == (line + head) + (tail + Stream(script)) by {
        assert buffered == head + tail;
      }
      NewlineOf(line, head);
      line, buffered := line + head, tail;
    }

    // Read one line into `line`, resuming what an earlier call left there. A
    // peer that sends no newline makes it hold at most one buffer past the limit.
    method ReadOneLine() returns (outcome: Outcome)
      requires Resumable() && Bounded()
      modifies this
      ensures Bounded() && |line| <= MAX_LINE_BYTES + capacity
      ensures Unread() == old(Unread()) && EndOf(script) == old(EndOf(script)) && |script| <= |old(script)|
      ensures outcome.Complete? ==> Whole(line)
      ensures outcome.Cancelled? ==> Resumable() && |script| < |old(script)|
      ensures outcome == Ended(TooLong) ==> Newline(line) > MAX_LINE_BYTES
      ensures outcome.Ended? && outcome != Ended(TooLong) ==>
        Resumable() && outcome.ending == EndOf(script) && Unread() == line
    {
      while true
        invariant Resumable() && Bounded()
        invariant Unread() == old(Unread()) && EndOf(script) == old(EndOf(script)) && |script| <= |old(script)|
        decreases |Unread()| - |line|
      {
        var fill := FillBuf();
        assert Unread() == old(Unread());
        if fill.Interrupted? {
          return Cancelled;
        }
        if fill.Stopped? || buffered == [] {
          return Ended(if fill.Stopped? then fill.ending else Eof);
        }
        var complete := Take();
        if complete {
          return if |line| - 1 > MAX_LINE_BYTES then Ended(TooLong) else Complete;
        }
        if |line| > MAX_LINE_BYTES {
          return Ended(TooLong);
        }
      }
    }
  }

  // ---------------------------------------------------------------------------
  // The connection
  // ---------------------------------------------------------------------------

  // The lines a connection hands on, and what ends it: a function of the bytes
  // alone, whatever pieces they came in and whichever waits were cancelled.
  method Receive(capacity: nat, script: seq<Event>) returns (lines: seq<Bytes>, ending: Ending)
    requires Within(script, capacity)
    ensures lines == Frames(Stream(script)).lines
    ensures ending == if Frames(Stream(script)).overlong then TooLong else EndOf(script)
  {
    var connection := new Connection(capacity, script);
    lines := [];
    ghost var bytes, end := Stream(script), EndOf(script);
    assert connection.Unread() == bytes;
    while true
      invariant fresh(connection) && connection.Resumable() && connection.Bounded()
      invariant EndOf(connection.script) == end
      invariant Progress(bytes, lines, connection.Unread())
      decreases |connection.Unread()| + |connection.script|
    {
      var outcome := connection.ReadOneLine();
      ghost var tail := connection.buffered + Stream(connection.script);
      match outcome {
        case Cancelled =>
        case Ended(e) =>
          Stops(bytes, lines, connection.line, tail);
          return lines, e;
        case Complete =>
          Advances(bytes, lines, connection.line, tail);
          lines := lines + [connection.line];
          connection.line := [];
          assert connection.Unread() == tail;
      }
    }
  }

  // The lines handed on so far are the first ones, and the rest are in what is
  // still unread.
  ghost predicate Progress(bytes: Bytes, lines: seq<Bytes>, unread: Bytes) {
    Frames(bytes) == Framed(lines + Frames(unread).lines, Frames(unread).overlong)
  }

  lemma Advances(bytes: Bytes, lines: seq<Bytes>, line: Bytes, tail: Bytes)
    requires Progress(bytes, lines, line + tail) && Whole(line)
    ensures Progress(bytes, lines + [line], tail)
  {
    OneMoreLine(line, tail);
    assert lines + ([line] + Frames(tail).lines) == (lines + [line]) + Frames(tail).lines;
  }

  lemma Stops(bytes: Bytes, lines: seq<Bytes>, line: Bytes, tail: Bytes)
    requires Progress(bytes, lines, line + tail)
    requires Newline(line) > MAX_LINE_BYTES || (Newline(line) == |line| && line + tail == line)
    ensures Frames(bytes) == Framed(lines, Newline(line) > MAX_LINE_BYTES)
  {
    if Newline(line) > MAX_LINE_BYTES {
      NoFurtherLine(line, tail);
    }
    assert lines + [] == lines;
  }

  lemma NoFurtherLine(line: Bytes, tail: Bytes)
    requires Newline(line) > MAX_LINE_BYTES
    ensures Frames(line + tail) == Framed([], true)
  {
    assert forall k :: 0 <= k < Newline(line) ==> (line + tail)[k] == line[k];
  }
}
