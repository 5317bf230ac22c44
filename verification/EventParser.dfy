/** An event-stream consumer as the WHATWG HTML Living Standard defines it:
    parsing (section 9.2.5) and interpretation (section 9.2.6). Every character
    the format gives a meaning is ASCII, so the consumer works on octets. */
module EventParser {
  import opened Splitting
  import opened Utf8

  const LF: byte := 0x0A
  const CR: byte := 0x0D
  const COLON: byte := 0x3A
  const SPACE: byte := 0x20

  const EVENT: bytes := [0x65, 0x76, 0x65, 0x6E, 0x74]
  const DATA: bytes := [0x64, 0x61, 0x74, 0x61]
  const ID: bytes := [0x69, 0x64]
  const RETRY: bytes := [0x72, 0x65, 0x74, 0x72, 0x79]
  const MESSAGE: bytes := [0x6D, 0x65, 0x73, 0x73, 0x61, 0x67, 0x65]
  const BOM: bytes := [0xEF, 0xBB, 0xBF]

  datatype Received = Received(kind: bytes, data: bytes)

  /** The three buffers, the reconnection time, and the events dispatched. */
  datatype Consumer = Consumer(data: bytes, kind: bytes, id: bytes, lastId: bytes, retry: bytes, events: seq<Received>)

  const IDLE := Consumer([], [], [], [], [], [])

  /** Index of the first CR or LF, or the length. */
  function EndOfLine(s: bytes): (k: nat)
    ensures k <= |s| && (k < |s| ==> s[k] == LF || s[k] == CR)
    ensures forall i :: 0 <= i < k ==> s[i] != LF && s[i] != CR
  {
    if s == [] || s[0] == LF || s[0] == CR then 0 else 1 + EndOfLine(s[1..])
  }

  /** Where the line after the one ending at `k` starts: CR LF is one ending. */
  function NextLine(s: bytes, k: nat): (n: nat)
    requires k < |s|
    ensures k < n <= |s|
  {
    if s[k] == CR && k + 1 < |s| && s[k + 1] == LF then k + 2 else k + 1
  }

  /** An empty data buffer resets without an event. */
  function Dispatch(c: Consumer): Consumer {
    if c.data == [] then c.(kind := [], lastId := c.id)
    else
      var data := if c.data[|c.data| - 1] == LF then c.data[..|c.data| - 1] else c.data;
      c.(data := [], kind := [], lastId := c.id,
         events := c.events + [Received(if c.kind == [] then MESSAGE else c.kind, data)])
  }

  function Field(c: Consumer, name: bytes, value: bytes): Consumer {
    if name == EVENT then c.(kind := value)
    else if name == DATA then c.(data := c.data + value + [LF])
    else if name == ID then (if 0 in value then c else c.(id := value))
    else if name == RETRY then
      (if value != [] && forall i :: 0 <= i < |value| ==> 0x30 <= value[i] <= 0x39 then c.(retry := value) else c)
    else c
  }

  function Line(c: Consumer, line: bytes): Consumer {
    var k := IndexOf(line, COLON);
    if line == [] then Dispatch(c)
    else if k == 0 then c
    else if k == |line| then Field(c, line, [])
    else
      var value := line[k + 1..];
      Field(c, line[..k], if value != [] && value[0] == SPACE then value[1..] else value)
  }

  /** Reading the lines of `s`; what follows the last line ending is pending and discarded. */
  function Read(c: Consumer, s: bytes): Consumer
    decreases |s|
  {
    var k := EndOfLine(s);
    if k == |s| then c else Read(Line(c, s[..k]), s[NextLine(s, k)..])
  }

  /** The events of a whole stream: one leading byte order mark is ignored. */
  function Parse(s: bytes): seq<Received> {
    Read(IDLE, if BOM <= s then s[3..] else s).events
  }

  // ------------------------------------------------------ reading line by line

  predicate OneLine(l: bytes) {
    forall i :: 0 <= i < |l| ==> l[i] != LF && l[i] != CR
  }

  /** The lines, each ended by LF. */
  function Text(lines: seq<bytes>): bytes {
    if lines == [] then [] else lines[0] + [LF] + Text(lines[1..])
  }

  function Lines(c: Consumer, lines: seq<bytes>): Consumer
    decreases |lines|
  {
    if lines == [] then c else Lines(Line(c, lines[0]), lines[1..])
  }

  lemma LineEnd(l: bytes, rest: bytes)
    requires OneLine(l)
    ensures EndOfLine(l + [LF] + rest) == |l|
  {
    hide EndOfLine;
    var s := l + [LF] + rest;
    assert s[|l|] == LF && forall i :: 0 <= i < |l| ==> s[i] == l[i];
  }

  lemma ReadLine(c: Consumer, l: bytes, rest: bytes)
    requires OneLine(l)
    ensures Read(c, l + [LF] + rest) == Read(Line(c, l), rest)
  {
    hide Line, EndOfLine, OneLine;
    var s := l + [LF] + rest;
    LineEnd(l, rest);
    assert s[|l|] == LF;
    assert s[..|l|] == l && s[|l| + 1..] == rest;
  }

  lemma {:induction false} ReadText(c: Consumer, lines: seq<bytes>, rest: bytes)
    requires forall l :: l in lines ==> OneLine(l)
    decreases |lines|
    ensures Read(c, Text(lines) + rest) == Read(Lines(c, lines), rest)
  {
    hide Read, Line;
    if lines == [] {
      assert Text(lines) + rest == rest;
    } else {
      assert Text(lines) + rest == lines[0] + [LF] + (Text(lines[1..]) + rest);
      ReadLine(c, lines[0], Text(lines[1..]) + rest);
      ReadText(Line(c, lines[0]), lines[1..], rest);
    }
  }

  lemma ReadPartial(c: Consumer, s: bytes)
    requires OneLine(s)
    ensures Read(c, s) == c
  {
  }

  /** Only an empty line dispatches. */
  lemma {:induction false} NonEmptyLinesDispatchNothing(c: Consumer, lines: seq<bytes>, m: nat)
    requires forall l :: l in lines ==> OneLine(l) && l != []
    requires m <= |Text(lines)|
    ensures Read(c, Text(lines)[..m]).events == c.events
    decreases |lines|
  {
    hide Read, Line;
    if lines == [] {
      ReadPartial(c, Text(lines)[..m]);
    } else {
      var l := lines[0];
      var rest := Text(lines[1..]);
      if m <= |l| {
        assert Text(lines)[..m] == l[..m];
        assert l in lines && OneLine(l[..m]);
        ReadPartial(c, l[..m]);
      } else {
        assert Text(lines)[..m] == l + [LF] + rest[..m - |l| - 1];
        ReadLine(c, l, rest[..m - |l| - 1]);
        LineKeepsEvents(c, l);
        NonEmptyLinesDispatchNothing(Line(c, l), lines[1..], m - |l| - 1);
      }
    }
  }

  lemma LineKeepsEvents(c: Consumer, l: bytes)
    requires l != []
    ensures Line(c, l).events == c.events
  {
  }
}
