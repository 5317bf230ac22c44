/** The gateway's event-stream printer, apps/gateway/stream.go, and the proof
    that a standard consumer reads back what it was asked to emit. */
module EventStream {
  import opened Utf8
  import opened Splitting
  import opened EventParser

  const STREAM_BUDGET := 0x80_0000
  const NAME_BUDGET := 128

  datatype Event = Event(name: bytes, data: bytes)

  datatype Result = Done | BadName | TooLarge | ContextDone | DeadlineFailed | WriteFailed | FlushFailed

  /** What the world decides about one call. */
  datatype Conditions = Conditions(live: bool, deadline: bool, flush: bool)

  /** The closure's variables; `out` is what reached the client and `room` how
      much more the connection will take before every write fails. */
  datatype Stream = Stream(started: bool, written: nat, out: bytes, room: nat)

  // ---------------------------------------------------------- specification

  /** `ReplaceAll(s, "\r\n", "\n")` */
  function WithoutCRLF(s: bytes): bytes {
    if s == [] then []
    else if |s| >= 2 && s[0] == CR && s[1] == LF then [LF] + WithoutCRLF(s[2..])
    else [s[0]] + WithoutCRLF(s[1..])
  }

  /** `ReplaceAll(s, "\r", "\n")` */
  function WithoutCR(s: bytes): (r: bytes)
    ensures |r| == |s| && forall i :: 0 <= i < |r| ==> r[i] == if s[i] == CR then LF else s[i]
  {
    seq(|s|, i requires 0 <= i < |s| => if s[i] == CR then LF else s[i])
  }

  function Normalised(data: bytes): bytes {
    WithoutCR(WithoutCRLF(data))
  }

  predicate NameOk(name: bytes) {
    CR !in name && LF !in name && 0 !in name && |name| <= NAME_BUDGET
  }

  const EVENT_FIELD: bytes := EVENT + [COLON, SPACE]
  const DATA_FIELD: bytes := DATA + [COLON, SPACE]

  function DataLines(parts: seq<bytes>): (r: seq<bytes>)
    ensures |r| == |parts| && forall i :: 0 <= i < |r| ==> r[i] == DATA_FIELD + parts[i]
  {
    seq(|parts|, i requires 0 <= i < |parts| => DATA_FIELD + parts[i])
  }

  function FrameLines(e: Event): seq<bytes> {
    (if e.name == [] then [] else [EVENT_FIELD + e.name]) + DataLines(Split(Normalised(e.data), LF))
  }

  /** The lines of an event, then the empty line that dispatches it. */
  function Frame(e: Event): bytes {
    Text(FrameLines(e)) + [LF]
  }

  function Frames(es: seq<Event>): bytes {
    if es == [] then [] else Frame(es[0]) + Frames(es[1..])
  }

  function Sent(s: Stream, b: bytes): Stream {
    if |b| <= s.room then s.(out := s.out + b, room := s.room - |b|)
    else s.(out := s.out + b[..s.room], room := 0)
  }

  function Emitted(s: Stream, e: Event, c: Conditions): (Stream, Result) {
    if !NameOk(e.name) then (s, BadName)
    else if s.written + |Frame(e)| > STREAM_BUDGET then (s, TooLarge)
    else if !c.live then (s, ContextDone)
    else if !c.deadline then (s, DeadlineFailed)
    else
      var sent := Sent(s, Frame(e)).(started := true);
      if |Frame(e)| > s.room then (sent, WriteFailed)
      else (sent.(written := s.written + |Frame(e)|), if c.flush then Done else FlushFailed)
  }

  // --------------------------------------------------------- frame arithmetic

  function Count(s: bytes, b: byte): nat {
    if s == [] then 0 else (if s[0] == b then 1 else 0) + Count(s[1..], b)
  }

  /** The size the printer accounts for, computed before anything is written. */
  function FrameBytes(e: Event): nat {
    var data := Normalised(e.data);
    |data| + 6 * (Count(data, LF) + 1) + 2 + if e.name == [] then 0 else 8 + |e.name|
  }

  lemma {:induction false} CountIsSplit(s: bytes, b: byte)
    ensures |Split(s, b)| == Count(s, b) + 1
  {
    if s != [] { CountIsSplit(s[1..], b); }
  }

  function Sizes(parts: seq<bytes>): nat {
    if parts == [] then 0 else |parts[0]| + Sizes(parts[1..])
  }

  lemma {:induction false} JoinSize(parts: seq<bytes>, b: byte)
    requires parts != []
    ensures |Join(parts, b)| == Sizes(parts) + |parts| - 1
  {
    if |parts| == 1 {
      assert Sizes(parts[1..]) == 0;
    } else {
      JoinSize(parts[1..], b);
    }
  }

  lemma {:induction false} TextSize(lines: seq<bytes>)
    ensures |Text(lines)| == Sizes(lines) + |lines|
  {
    if lines != [] { TextSize(lines[1..]); }
  }

  lemma {:induction false} DataLinesSize(parts: seq<bytes>)
    ensures Sizes(DataLines(parts)) == Sizes(parts) + 6 * |parts|
  {
    if parts != [] {
      assert DataLines(parts)[1..] == DataLines(parts[1..]);
      DataLinesSize(parts[1..]);
    }
  }

  lemma {:induction false} TextConcat(a: seq<bytes>, b: seq<bytes>)
    ensures Text(a + b) == Text(a) + Text(b)
  {
    if a == [] {
      assert a + b == b;
    } else {
      assert (a + b)[1..] == a[1..] + b;
      TextConcat(a[1..], b);
    }
  }

  /** The account is the exact number of octets of the frame. */
  lemma FrameBytesExact(e: Event)
    ensures FrameBytes(e) == |Frame(e)|
  {
    hide Text, Split, Join, Sizes, Count, Normalised;
    var data := Normalised(e.data);
    var parts := Split(data, LF);
    var head := if e.name == [] then [] else [EVENT_FIELD + e.name];
    CountIsSplit(data, LF);
    JoinSplit(data, LF);
    JoinSize(parts, LF);
    TextSize(DataLines(parts));
    DataLinesSize(parts);
    TextConcat(head, DataLines(parts));
    OneLineText(EVENT_FIELD + e.name);
  }

  lemma OneLineText(l: bytes)
    ensures Text([l]) == l + [LF] && Text([]) == []
  {
    assert Text([l][1..]) == [];
  }

  // -------------------------------------------------------------- round trip

  lemma {:induction false} NormalisedHasNoCR(s: bytes)
    ensures CR !in Normalised(s)
  {
    var t := WithoutCRLF(s);
    forall i | 0 <= i < |t| ensures Normalised(s)[i] != CR {}
  }

  /** The lines of a text in the standard's sense, where CR, LF and CR LF all end one. */
  function StandardLines(s: bytes): seq<bytes>
    decreases |s|
  {
    var k := EndOfLine(s);
    if k == |s| then [s] else [s[..k]] + StandardLines(s[NextLine(s, k)..])
  }

  /** Normalising changes line endings only: the lines stay what they were. */
  lemma {:induction false} NormalisedLines(s: bytes)
    ensures Split(Normalised(s), LF) == StandardLines(s)
    decreases |s|
  {
    if s == [] {
    } else if |s| >= 2 && s[0] == CR && s[1] == LF {
      NormalisedLines(s[2..]);
      assert Normalised(s) == [LF] + Normalised(s[2..]);
      SplitCons(LF, Normalised(s[2..]), LF);
    } else {
      var rest := s[1..];
      NormalisedLines(rest);
      var x := if s[0] == CR then LF else s[0];
      assert Normalised(s) == [x] + Normalised(rest);
      SplitCons(x, Normalised(rest), LF);
      if x == LF {
        assert NextLine(s, 0) == 1;
      } else {
        LineCons(s);
      }
    }
  }

  lemma LineCons(s: bytes)
    requires s != [] && s[0] != CR && s[0] != LF
    ensures StandardLines(s) == [[s[0]] + StandardLines(s[1..])[0]] + StandardLines(s[1..])[1..]
  {
    var k := EndOfLine(s[1..]);
    assert EndOfLine(s) == k + 1;
    assert [s[0]] + s[1..][..k] == s[..k + 1];
    if k < |s| - 1 {
      assert NextLine(s, k + 1) == NextLine(s[1..], k) + 1;
      assert s[1..][NextLine(s[1..], k)..] == s[NextLine(s, k + 1)..];
    } else {
      assert [s[0]] + s[1..] == s;
    }
  }

  lemma FrameLinesClean(e: Event)
    requires NameOk(e.name)
    ensures forall l :: l in FrameLines(e) ==> OneLine(l) && l != []
  {
    hide Normalised, Split;
    var data := Normalised(e.data);
    var parts := Split(data, LF);
    SplitPieces(data, LF);
    NormalisedHasNoCR(e.data);
    forall i | 0 <= i < |parts| ensures OneLine(DataLines(parts)[i]) {
      PieceWithin(data, i);
      assert CR !in parts[i] && LF !in parts[i];
    }
    forall l | l in DataLines(parts) ensures OneLine(l) && l != [] {
      var i :| 0 <= i < |parts| && DataLines(parts)[i] == l;
    }
    assert OneLine(EVENT_FIELD + e.name);
  }

  lemma {:induction false} PieceWithin(s: bytes, i: nat)
    requires i < |Split(s, LF)|
    ensures forall b :: b in Split(s, LF)[i] ==> b in s
  {
    if s != [] {
      var rest := Split(s[1..], LF);
      assert forall b :: b in s[1..] ==> b in s;
      if s[0] == LF {
        if i > 0 { PieceWithin(s[1..], i - 1); assert Split(s, LF)[i] == rest[i - 1]; }
      } else {
        PieceWithin(s[1..], i);
        if i > 0 { assert Split(s, LF)[i] == rest[i]; }
      }
    }
  }

  lemma DataLine(c: Consumer, part: bytes)
    ensures Line(c, DATA_FIELD + part) == c.(data := c.data + part + [LF])
  {
    var l := DATA_FIELD + part;
    assert l[4] == COLON && forall i :: 0 <= i < 4 ==> l[i] != COLON;
    assert IndexOf(l, COLON) == 4;
    assert l[..4] == DATA && l[5..] == [SPACE] + part;
    assert l[5..][1..] == part;
  }

  lemma NameLine(c: Consumer, name: bytes)
    ensures Line(c, EVENT_FIELD + name) == c.(kind := name)
  {
    var l := EVENT_FIELD + name;
    assert l[5] == COLON && forall i :: 0 <= i < 5 ==> l[i] != COLON;
    assert IndexOf(l, COLON) == 5;
    assert l[..5] == EVENT && l[6..] == [SPACE] + name;
    assert l[6..][1..] == name;
  }

  lemma {:induction false} DataLinesJoin(c: Consumer, parts: seq<bytes>)
    requires parts != []
    decreases |parts|
    ensures Lines(c, DataLines(parts)) == c.(data := c.data + Join(parts, LF) + [LF])
  {
    hide Line;
    var lines := DataLines(parts);
    DataLine(c, parts[0]);
    assert lines[1..] == DataLines(parts[1..]);
    if |parts| > 1 {
      var next := c.(data := c.data + parts[0] + [LF]);
      DataLinesJoin(next, parts[1..]);
      assert c.data + parts[0] + [LF] + Join(parts[1..], LF) == c.data + (parts[0] + [LF] + Join(parts[1..], LF));
    }
  }

  lemma LinesConcat(c: Consumer, l: bytes, lines: seq<bytes>)
    ensures Lines(c, [l] + lines) == Lines(Line(c, l), lines)
  {
    assert ([l] + lines)[1..] == lines;
  }

  /** What a consumer makes of an event: a nameless one is of type "message". */
  function Reading(e: Event): Received {
    Received(if e.name == [] then MESSAGE else e.name, Normalised(e.data))
  }

  function Readings(es: seq<Event>): (r: seq<Received>)
    ensures |r| == |es| && forall i :: 0 <= i < |es| ==> r[i] == Reading(es[i])
  {
    seq(|es|, i requires 0 <= i < |es| => Reading(es[i]))
  }

  lemma ReadingsCons(es: seq<Event>, n: nat)
    requires 0 < n <= |es|
    ensures [Reading(es[0])] + Readings(es[1..][..n - 1]) == Readings(es[..n])
  {
  }

  predicate Between(c: Consumer) {
    c.data == [] && c.kind == []
  }

  /** One frame dispatches exactly one event and leaves no residue. */
  lemma ReadFrame(c: Consumer, e: Event, rest: bytes)
    requires Between(c) && NameOk(e.name)
    ensures exists d: Consumer :: Between(d) && d.events == c.events + [Reading(e)] && Read(c, Frame(e) + rest) == Read(d, rest)
  {
    hide Read, Line, Lines, Normalised, Split, Join, Text;
    var data := Normalised(e.data);
    var parts := Split(data, LF);
    var lines := DataLines(parts);
    var named := c.(kind := e.name);
    var filled := named.(data := data + [LF]);
    FrameLinesClean(e);
    assert Frame(e) + rest == Text(FrameLines(e)) + ([LF] + rest);
    ReadText(c, FrameLines(e), [LF] + rest);
    assert Lines(c, FrameLines(e)) == Lines(named, lines) by {
      if e.name == [] {
        assert FrameLines(e) == lines && named == c;
      } else {
        LinesConcat(c, EVENT_FIELD + e.name, lines);
        NameLine(c, e.name);
      }
    }
    DataLinesJoin(named, parts);
    JoinSplit(data, LF);
    assert [] + data + [LF] == data + [LF];
    assert Lines(named, lines) == filled;
    assert [LF] + rest == [] + [LF] + rest;
    ReadLine(filled, [], rest);
    var d := Line(filled, []);
    assert d == Dispatch(filled) by { EmptyLine(filled); }
    assert (data + [LF])[..|data|] == data;
    assert d.events == c.events + [Reading(e)];
  }

  lemma EmptyLine(c: Consumer)
    ensures Line(c, []) == Dispatch(c)
  {
  }

  /** A frame cut short anywhere dispatches nothing. */
  lemma CutFrame(c: Consumer, e: Event, m: nat)
    requires NameOk(e.name) && m < |Frame(e)|
    ensures Read(c, Frame(e)[..m]).events == c.events
  {
    hide Read;
    FrameLinesClean(e);
    assert Frame(e)[..m] == Text(FrameLines(e))[..m];
    NonEmptyLinesDispatchNothing(c, FrameLines(e), m);
  }

  /** How many whole frames the first `m` octets hold. */
  function Whole(es: seq<Event>, m: nat): (n: nat)
    ensures n <= |es|
  {
    if es == [] || m < |Frame(es[0])| then 0 else 1 + Whole(es[1..], m - |Frame(es[0])|)
  }

  lemma {:induction false} ReadPrefix(c: Consumer, es: seq<Event>, m: nat)
    requires Between(c) && forall e :: e in es ==> NameOk(e.name)
    requires m <= |Frames(es)|
    ensures Read(c, Frames(es)[..m]).events == c.events + Readings(es[..Whole(es, m)])
    decreases |es|
  {
    hide Read, Frame, Readings, Reading;
    if es == [] {
      assert Readings(es[..0]) == [];
      ReadPartial(c, Frames(es)[..m]);
    } else {
      var f := Frame(es[0]);
      if m < |f| {
        assert Frames(es)[..m] == f[..m];
        CutFrame(c, es[0], m);
      } else {
        var rest := Frames(es[1..])[..m - |f|];
        assert Frames(es)[..m] == f + rest;
        ReadFrame(c, es[0], rest);
        var d :| Between(d) && d.events == c.events + [Reading(es[0])] && Read(c, f + rest) == Read(d, rest);
        ReadPrefix(d, es[1..], m - |f|);
        var n := Whole(es, m);
        ReadingsCons(es, n);
      }
    }
  }

  lemma FrameStart(e: Event)
    ensures |Frame(e)| > 0 && Frame(e)[0] != BOM[0]
  {
    hide Normalised, Split;
    var lines := FrameLines(e);
    assert lines[0] == if e.name == [] then DATA_FIELD + Split(Normalised(e.data), LF)[0] else EVENT_FIELD + e.name;
    assert Frame(e)[0] == lines[0][0];
  }

  /** A client that has received any part of what was emitted has received
      exactly the events whose frames are whole. */
  lemma PrefixRoundTrip(es: seq<Event>, m: nat)
    requires forall e :: e in es ==> NameOk(e.name)
    requires m <= |Frames(es)|
    ensures Parse(Frames(es)[..m]) == Readings(es[..Whole(es, m)])
  {
    hide Read, Frame;
    var s := Frames(es)[..m];
    if es != [] && s != [] {
      FrameStart(es[0]);
      assert s[0] == Frame(es[0])[0];
    }
    ReadPrefix(IDLE, es, m);
  }

  lemma {:induction false} WholeAll(es: seq<Event>)
    ensures Whole(es, |Frames(es)|) == |es|
  {
    if es != [] { WholeAll(es[1..]); }
  }

  /** Emitting and parsing: every event comes back, once, in order, with its
      type and its data up to the choice of line ending. */
  lemma RoundTrip(es: seq<Event>)
    requires forall e :: e in es ==> NameOk(e.name)
    ensures Parse(Frames(es)) == Readings(es)
  {
    WholeAll(es);
    assert Frames(es)[..|Frames(es)|] == Frames(es) && es[..|es|] == es;
    PrefixRoundTrip(es, |Frames(es)|);
  }

  // ------------------------------------------------------ the emit closure

  class Printer {
    var started: bool
    var written: nat
    var out: bytes
    var room: nat

    function State(): Stream
      reads this
    {
      Stream(started, written, out, room)
    }

    constructor (capacity: nat)
      ensures State() == Stream(false, 0, [], capacity)
    {
      started, written, out, room := false, 0, [], capacity;
    }

    /** `io.WriteString`: a failed write may have sent a part. */
    method Put(b: bytes) returns (ok: bool)
      modifies this`out, this`room
      ensures State() == Sent(old(State()), b) && (ok <==> |b| <= old(room))
    {
      ok := |b| <= room;
      var n := if ok then |b| else room;
      assert b[..|b|] == b;
      out, room := out + b[..n], room - n;
    }

    /** The writes of one frame, stopping at the first that fails. */
    method PutFrame(event: Event, data: bytes) returns (ok: bool)
      requires data == Normalised(event.data)
      modifies this`out, this`room
      ensures State() == Sent(old(State()), Frame(event)) && (ok <==> |Frame(event)| <= old(room))
    {
      hide Text, Split, Normalised, Sent, Frame, TextTo, Advanced;
      ghost var before := State();
      ghost var frame := Frame(event);
      var parts := Split(data, LF);
      TextBegin(event);
      AdvancedNot(before);
      ghost var t: bytes := [];
      if event.name != [] {
        var line := EVENT_FIELD + event.name + [LF];
        ok := Put(line);
        PutMore(before, [], line, frame);
        if !ok { return false; }
        t := line;
      }
      for index := 0 to |parts|
        invariant t == TextTo(event, index) && |t| <= before.room && State() == Advanced(before, t)
      {
        var line := DATA_FIELD + parts[index] + [LF];
        ok := Put(line);
        TextNext(event, index);
        PutMore(before, t, line, frame);
        if !ok { return false; }
        t := t + line;
      }
      TextEnd(event);
      ok := Put([LF]);
      PutMore(before, t, [LF], frame);
      PutAll(before, frame);
    }

    method Emit(event: Event, c: Conditions) returns (result: Result)
      modifies this
      ensures (State(), result) == Emitted(old(State()), event, c)
    {
      hide Normalised, Sent, Frame;
      if CR in event.name || LF in event.name || 0 in event.name || |event.name| > NAME_BUDGET { return BadName; }
      var data := Normalised(event.data);
      var frameBytes := |data| + 6 * (Count(data, LF) + 1) + 2;
      if event.name != [] {
        frameBytes := frameBytes + 8 + |event.name|;
      }
      FrameBytesExact(event);
      if written + frameBytes > STREAM_BUDGET { return TooLarge; }
      if !c.live { return ContextDone; }
      if !c.deadline { return DeadlineFailed; }
      started := true;
      StartedOnly(old(State()), Frame(event));
      var ok := PutFrame(event, data);
      if !ok { return WriteFailed; }
      written := written + frameBytes;
      return if c.flush then Done else FlushFailed;
    }
  }

  function Advanced(s: Stream, t: bytes): (r: Stream)
    requires |t| <= s.room
    ensures r.room == s.room - |t|
  {
    s.(out := s.out + t, room := s.room - |t|)
  }

  lemma AdvancedNot(s: Stream)
    ensures Advanced(s, []) == s
  {
  }

  /** One more write, after `t`, of a frame that must begin with both. */
  lemma PutMore(s: Stream, t: bytes, b: bytes, frame: bytes)
    requires |t| <= s.room && t + b <= frame
    ensures |t| + |b| <= s.room ==> Sent(Advanced(s, t), b) == Advanced(s, t + b)
    ensures |t| + |b| > s.room ==> Sent(Advanced(s, t), b) == Sent(s, frame) && |frame| > s.room
    ensures t == [] ==> t + b == b
  {
    var n := s.room - |t|;
    if |b| <= n {
      assert s.out + t + b == s.out + (t + b);
    } else {
      BeginsWith(t, b, frame, n);
      assert s.out + t + b[..n] == s.out + (t + b[..n]);
    }
  }

  lemma BeginsWith(t: bytes, b: bytes, frame: bytes, n: nat)
    requires t + b <= frame && n < |b|
    ensures |frame| > |t| + n && frame[..|t| + n] == t + b[..n]
  {
    var both := t + b;
    assert forall i :: 0 <= i < |both| ==> frame[i] == both[i];
  }

  lemma PutAll(s: Stream, frame: bytes)
    ensures |frame| <= s.room ==> Sent(s, frame) == Advanced(s, frame)
  {
  }

  lemma StartedOnly(s: Stream, frame: bytes)
    ensures Sent(s.(started := true), frame) == Sent(s, frame).(started := true)
  {
  }

  /** The text of a frame up to its data line `i`. */
  function TextTo(e: Event, i: nat): bytes
    requires i <= |Split(Normalised(e.data), LF)|
  {
    var lines := FrameLines(e);
    Text(lines[..|lines| - |Split(Normalised(e.data), LF)| + i])
  }

  lemma TextBegin(e: Event)
    ensures TextTo(e, 0) == (if e.name == [] then [] else EVENT_FIELD + e.name + [LF])
    ensures TextTo(e, 0) <= Frame(e)
  {
    hide Text, Split, Normalised;
    var lines := FrameLines(e);
    if e.name != [] {
      OneLineText(EVENT_FIELD + e.name);
      assert lines[..1] == [EVENT_FIELD + e.name] && lines[..1] + lines[1..] == lines;
      TextConcat(lines[..1], lines[1..]);
      assert Frame(e) == Text(lines[..1]) + (Text(lines[1..]) + [LF]);
    } else {
      OneLineText([]);
      assert lines[..0] == [];
    }
  }

  lemma TextNext(e: Event, i: nat)
    requires i < |Split(Normalised(e.data), LF)|
    ensures var line := DATA_FIELD + Split(Normalised(e.data), LF)[i] + [LF];
      TextTo(e, i + 1) == TextTo(e, i) + line && TextTo(e, i) + line <= Frame(e)
  {
    hide Text, Split, Normalised;
    var lines, parts := FrameLines(e), Split(Normalised(e.data), LF);
    var k := |lines| - |parts| + i;
    assert lines[k] == DATA_FIELD + parts[i];
    assert lines[..k + 1] == lines[..k] + [lines[k]];
    TextConcat(lines[..k], [lines[k]]);
    OneLineText(lines[k]);
    assert lines == lines[..k + 1] + lines[k + 1..];
    TextConcat(lines[..k + 1], lines[k + 1..]);
    assert Frame(e) == Text(lines[..k + 1]) + (Text(lines[k + 1..]) + [LF]);
  }

  lemma TextEnd(e: Event)
    ensures TextTo(e, |Split(Normalised(e.data), LF)|) + [LF] == Frame(e)
  {
    hide Text, Split, Normalised;
    var lines := FrameLines(e);
    assert lines[..|lines|] == lines;
  }

  // ---------------------------------------------------------- whole sessions

  datatype Call = Call(event: Event, conditions: Conditions)

  /** `sent`: the events emit sent whole; `cut`: the one, if any, whose write failed part way. */
  datatype Session = Session(stream: Stream, sent: seq<Event>, cut: seq<Event>)

  function NextCall(h: Session, call: Call): Session {
    var (s, result) := Emitted(h.stream, call.event, call.conditions);
    match result
    case Done | FlushFailed => Session(s, h.sent + [call.event], h.cut)
    case WriteFailed => Session(s, h.sent, if h.stream.room > 0 then [call.event] else h.cut)
    case _ => Session(s, h.sent, h.cut)
  }

  function AfterCalls(h: Session, calls: seq<Call>): Session
    decreases |calls|
  {
    if calls == [] then h else AfterCalls(NextCall(h, calls[0]), calls[1..])
  }

  function Opened(capacity: nat): Session {
    Session(Stream(false, 0, [], capacity), [], [])
  }

  ghost predicate SessionInv(h: Session) {
    var s := h.stream;
    && s.written == |Frames(h.sent)| <= STREAM_BUDGET
    && s.written <= |s.out| <= STREAM_BUDGET
    && s.out <= Frames(h.sent + h.cut)
    && (h.cut == [] ==> s.out == Frames(h.sent))
    && (h.cut != [] ==> s.room == 0 && |s.out| < |Frames(h.sent + h.cut)|)
    && |h.cut| <= 1
    && forall e :: e in h.sent + h.cut ==> NameOk(e.name)
  }

  lemma {:induction false} FramesConcat(a: seq<Event>, e: Event)
    ensures Frames(a + [e]) == Frames(a) + Frame(e)
  {
    hide Frame;
    if a == [] {
      assert Frames([e][1..]) == [];
      assert a + [e] == [e];
    } else {
      assert (a + [e])[1..] == a[1..] + [e];
      FramesConcat(a[1..], e);
    }
  }

  lemma CallKeepsInv(h: Session, call: Call)
    requires SessionInv(h)
    ensures SessionInv(NextCall(h, call))
  {
    hide Frame, Frames;
    var e := call.event;
    var s := h.stream;
    FrameStart(e);
    FramesConcat(h.sent, e);
    assert h.sent + [] == h.sent && h.sent + [e] + [] == h.sent + [e];
    if NextCall(h, call).sent != h.sent {
      assert h.cut == [];
    } else if NextCall(h, call).cut != h.cut {
      assert s.out + Frame(e)[..s.room] <= Frames(h.sent) + Frame(e);
    } else {
      assert Frame(e)[..0] == [];
    }
  }

  lemma {:induction false} CallsKeepInv(h: Session, calls: seq<Call>)
    requires SessionInv(h)
    ensures SessionInv(AfterCalls(h, calls))
    decreases |calls|
  {
    hide SessionInv, NextCall;
    if calls != [] {
      CallKeepsInv(h, calls[0]);
      CallsKeepInv(NextCall(h, calls[0]), calls[1..]);
    }
  }

  /** The whole life of a response, whatever is emitted and whenever the
      connection gives out: the client's parser reports exactly the events sent
      whole, `written` counts their exact octets, and the stream never passes
      8 MiB. */
  lemma SessionRoundTrip(capacity: nat, calls: seq<Call>)
    ensures var h := AfterCalls(Opened(capacity), calls);
      && Parse(h.stream.out) == Readings(h.sent)
      && h.stream.written == |Frames(h.sent)|
      && h.stream.written <= |h.stream.out| <= STREAM_BUDGET
      && (h.cut == [] ==> h.stream.written == |h.stream.out|)
  {
    var h := AfterCalls(Opened(capacity), calls);
    CallsKeepInv(Opened(capacity), calls);
    var es := h.sent + h.cut;
    var m := |h.stream.out|;
    assert Frames(es)[..m] == h.stream.out;
    PrefixRoundTrip(es, m);
    hide AfterCalls, Frame, Frames;
    assert Whole(es, m) == |h.sent| by {
      if h.cut == [] {
        assert es == h.sent;
        WholeAll(es);
      } else {
        assert h.cut == [h.cut[0]];
        FramesConcat(h.sent, h.cut[0]);
        WholeBut(h.sent, h.cut[0], m);
      }
    }
    assert es[..|h.sent|] == h.sent;
  }

  lemma {:induction false} WholeBut(es: seq<Event>, e: Event, m: nat)
    requires |Frames(es)| <= m < |Frames(es)| + |Frame(e)|
    ensures Whole(es + [e], m) == |es|
  {
    hide Frame;
    if es == [] {
      assert es + [e] == [e];
    } else {
      assert (es + [e])[1..] == es[1..] + [e];
      WholeBut(es[1..], e, m - |Frame(es[0])|);
    }
  }

  /** A name "message" and no name are one event to the client. */
  lemma MessageIsDefault(data: bytes)
    ensures Event(MESSAGE, data) != Event([], data)
    ensures Parse(Frames([Event(MESSAGE, data)])) == Parse(Frames([Event([], data)]))
  {
    RoundTrip([Event(MESSAGE, data)]);
    RoundTrip([Event([], data)]);
    assert Readings([Event(MESSAGE, data)]) == Readings([Event([], data)]);
  }

  // ----------------------------------------------------------- what one call does

  /** An event goes out whole, and is flushed, exactly if its name is at most 128
      octets without CR, LF and NUL, the response stays within 8 MiB, the context
      lives, the deadline can be set, the connection takes the frame and the flush
      succeeds. */
  lemma EmitsExactly(s: Stream, e: Event, c: Conditions)
    ensures var (after, r) := Emitted(s, e, c);
      && (r == Done <==>
            && |e.name| <= 128 && (forall i :: 0 <= i < |e.name| ==> e.name[i] !in {13, 10, 0})
            && s.written + |Frame(e)| <= 8388608 && c.live && c.deadline && |Frame(e)| <= s.room && c.flush)
      && (r == Done ==> after == Stream(true, s.written + |Frame(e)|, s.out + Frame(e), s.room - |Frame(e)|))
  {
    hide Frame;
    if r :| r in e.name && r in {13, 10, 0} {
      var i :| 0 <= i < |e.name| && e.name[i] == r;
    }
  }

  /** A refusal, a dead context and a deadline that cannot be set leave the response
      untouched, and not even begun; anything later has begun it, and has sent a
      prefix of the frame: all of it exactly if the connection takes it. */
  lemma EmitsNothingUnlessAdmitted(s: Stream, e: Event, c: Conditions)
    ensures var (after, r) := Emitted(s, e, c);
      && (r in {BadName, TooLarge, ContextDone, DeadlineFailed} ==> after == s)
      && (!c.live || !c.deadline ==> r in {BadName, TooLarge, ContextDone, DeadlineFailed})
      && (r in {Done, WriteFailed, FlushFailed} ==>
            after.started && s.out <= after.out <= s.out + Frame(e) && |after.out| + after.room == |s.out| + s.room)
      && (r == WriteFailed <==> r !in {BadName, TooLarge, ContextDone, DeadlineFailed} && |Frame(e)| > s.room)
      && (r == WriteFailed ==> after.written == s.written && |after.out| < |s.out| + |Frame(e)|)
  {
    hide Frame, NameOk;
  }
}
