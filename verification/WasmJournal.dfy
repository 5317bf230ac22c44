/** The sandbox I/O journal of cmd/alva/wasm.go: stdio chunks become LF or EOF
    frames, and a stored frame is cut into UTF-8 segments. */
module WasmJournal {
  import opened Splitting
  import opened Utf8

  const LF: byte := 0x0A
  const FRAME_BUDGET := 0x10_0000

  datatype Stdio = Stdout | Stderr

  /** The kinds the sandbox runner reports: a stream, a stream's last bytes
      before its prefix limit, or a complete request or response frame. */
  datatype Kind = Chunk(stream: Stdio, limit: bool) | Message(name: string)

  /** What the world does with a frame: the body that redaction leaves of the
      captured octets, and whether the frame with a number is encoded and stored. */
  datatype Storing = Storing(redact: bytes -> bytes, accepts: nat -> bool)

  datatype Stage = Complete | EofPartial | TruncatedPrefixLimit

  datatype Event = Event(kind: Kind, operation: nat, data: bytes)

  datatype Frame = Frame(kind: Kind, operation: nat, data: bytes, stage: Stage, sequence: nat)

  /** `frames` is what has been recorded. */
  datatype Journal = Journal(pending: map<Stdio, bytes>, frames: seq<Frame>, sequence: nat)

  const EMPTY := Journal(map[], [], 0)

  // ---------------------------------------------------------- specification

  /** The pieces of a text that end in LF, LF included. */
  function Lines(s: bytes): seq<bytes> {
    var k := IndexOf(s, LF);
    if k == |s| then [] else [s[..k + 1]] + Lines(s[k + 1..])
  }

  /** What follows the last LF. */
  function Rest(s: bytes): bytes {
    var k := IndexOf(s, LF);
    if k == |s| then s else Rest(s[k + 1..])
  }

  function Pending(j: Journal, s: Stdio): bytes {
    if s in j.pending then j.pending[s] else []
  }

  /** `frame`: numbered, redacted, then recorded unless encoding or storing fails. */
  function Framed(j: Journal, kind: Kind, op: nat, data: bytes, stage: Stage, env: Storing): (Journal, bool) {
    var n := j.sequence + 1;
    if env.accepts(n) then (j.(frames := j.frames + [Frame(kind, op, env.redact(data), stage, n)], sequence := n), true)
    else (j.(sequence := n), false)
  }

  function FramedAll(j: Journal, kind: Kind, op: nat, lines: seq<bytes>, env: Storing): (Journal, bool)
    decreases |lines|
  {
    if lines == [] then (j, true)
    else
      var (first, ok) := Framed(j, kind, op, lines[0], Complete, env);
      if ok then FramedAll(first, kind, op, lines[1..], env) else (first, false)
  }

  function Observed(j: Journal, e: Event, env: Storing): (Journal, bool) {
    match e.kind
    case Message(_) => Framed(j, e.kind, e.operation, e.data, Complete, env)
    case Chunk(stream, limit) =>
      var data := Pending(j, stream) + e.data;
      if |data| > FRAME_BUDGET then (j, false)
      else
        var (lined, ok) := FramedAll(j, e.kind, e.operation, Lines(data), env);
        if !ok then (lined, false)
        else
          var kept := lined.(pending := lined.pending[stream := Rest(data)]);
          if limit && Rest(data) != [] then
            Framed(kept.(pending := kept.pending - {stream}), e.kind, e.operation, Rest(data), TruncatedPrefixLimit, env)
          else (kept, true)
  }

  function Flushed(j: Journal, s: Stdio, env: Storing): (Journal, bool) {
    if Pending(j, s) == [] then (j, true)
    else
      var (k, ok) := Framed(j, Chunk(s, false), 0, Pending(j, s), EofPartial, env);
      (k.(pending := k.pending - {s}), ok)
  }

  function Finished(j: Journal, env: Storing): (Journal, bool) {
    var (first, out) := Flushed(j, Stdout, env);
    var (second, err) := Flushed(first, Stderr, env);
    (second, out && err)
  }

  // ----------------------------------------------------------- the Go object

  class WasmJournal {
    var pending: map<Stdio, bytes>
    var frames: seq<Frame>
    var sequence: nat
    const env: Storing

    function State(): Journal
      reads this
    {
      Journal(pending, frames, sequence)
    }

    constructor (storing: Storing)
      ensures State() == EMPTY && env == storing
    {
      pending, frames, sequence, env := map[], [], 0, storing;
    }

    method Put(kind: Kind, op: nat, data: bytes, stage: Stage) returns (ok: bool)
      modifies this
      ensures (State(), ok) == Framed(old(State()), kind, op, data, stage, env)
      ensures pending == old(pending)
    {
      sequence := sequence + 1;
      if !env.accepts(sequence) { return false; }
      frames := frames + [Frame(kind, op, env.redact(data), stage, sequence)];
      return true;
    }

    method Observe(e: Event) returns (ok: bool)
      modifies this
      ensures (State(), ok) == Observed(old(State()), e, env)
    {
      if e.kind.Message? {
        ok := Put(e.kind, e.operation, e.data, Complete);
        return ok;
      }
      var stream := e.kind.stream;
      var data := (if stream in pending then pending[stream] else []) + e.data;
      if |data| > FRAME_BUDGET { return false; }
      ghost var all := FramedAll(State(), e.kind, e.operation, Lines(data), env);
      ghost var rest := Rest(data);
      while true
        invariant FramedAll(State(), e.kind, e.operation, Lines(data), env) == all
        invariant Rest(data) == rest && pending == old(pending)
        decreases |data|
      {
        var index := IndexOf(data, LF);
        if index == |data| { break; }
        ok := Put(e.kind, e.operation, data[..index + 1], Complete);
        if !ok { return false; }
        data := data[index + 1..];
      }
      pending := pending[stream := data];
      if e.kind.limit && |data| > 0 {
        pending := pending - {stream};
        ok := Put(e.kind, e.operation, data, TruncatedPrefixLimit);
        return ok;
      }
      return true;
    }

    method Finish() returns (ok: bool)
      modifies this
      ensures (State(), ok) == Finished(old(State()), env)
    {
      ok := true;
      var kinds := [Stdout, Stderr];
      ghost var goal := Finished(State(), env);
      for index := 0 to 2
        invariant index == 0 ==> ok && State() == old(State())
        invariant index == 1 ==> (State(), ok) == Flushed(old(State()), Stdout, env)
        invariant index == 2 ==> (State(), ok) == goal
      {
        var kind := kinds[index];
        if kind in pending && |pending[kind]| > 0 {
          var stored := Put(Chunk(kind, false), 0, pending[kind], EofPartial);
          ok := ok && stored;
          pending := pending - {kind};
        }
      }
    }
  }

  // ------------------------------------------------- the framing of a stream

  function Joined(parts: seq<bytes>): bytes {
    if parts == [] then [] else parts[0] + Joined(parts[1..])
  }

  predicate IsLine(l: bytes) {
    l != [] && l[|l| - 1] == LF && LF !in l[..|l| - 1]
  }

  lemma FirstLine(l: bytes, rest: bytes)
    requires IsLine(l)
    ensures Lines(l + rest) == [l] + Lines(rest) && Rest(l + rest) == Rest(rest)
  {
    var s := l + rest;
    assert s[|l| - 1] == LF && forall i :: 0 <= i < |l| - 1 ==> s[i] == l[..|l| - 1][i];
    assert IndexOf(s, LF) == |l| - 1;
    assert s[..|l|] == l && s[|l|..] == rest;
  }

  lemma NoLine(s: bytes)
    requires LF !in s
    ensures Lines(s) == [] && Rest(s) == s
  {
  }

  /** Every text is a text without LF or a line and a text. */
  lemma LineOrRest(s: bytes) returns (l: bytes, rest: bytes)
    ensures l == [] ==> LF !in s && rest == s
    ensures l != [] ==> IsLine(l) && s == l + rest && |rest| < |s|
  {
    var k := IndexOf(s, LF);
    if k == |s| {
      l, rest := [], s;
    } else {
      l, rest := s[..k + 1], s[k + 1..];
      assert l[..k] == s[..k];
    }
  }

  /** Framing loses, adds and reorders no octet, and each line holds one LF, at its end. */
  lemma {:induction false} LinesAndRest(s: bytes)
    ensures Joined(Lines(s)) + Rest(s) == s
    ensures LF !in Rest(s)
    ensures forall l :: l in Lines(s) ==> IsLine(l)
    decreases |s|
  {
    hide Lines, Rest, IsLine;
    var l, rest := LineOrRest(s);
    if l == [] {
      NoLine(s);
    } else {
      FirstLine(l, rest);
      LinesAndRest(rest);
      assert ([l] + Lines(rest))[1..] == Lines(rest);
      assert l + (Joined(Lines(rest)) + Rest(rest)) == s;
    }
  }

  /** Framing a chunk continues framing the text before it. */
  lemma {:induction false} LinesConcat(a: bytes, b: bytes)
    ensures Lines(a + b) == Lines(a) + Lines(Rest(a) + b)
    ensures Rest(a + b) == Rest(Rest(a) + b)
    decreases |a|
  {
    hide Lines, Rest, IsLine;
    var l, rest := LineOrRest(a);
    if l == [] {
      NoLine(a);
    } else {
      assert a + b == l + (rest + b);
      FirstLine(l, rest + b);
      FirstLine(l, rest);
      LinesConcat(rest, b);
    }
  }

  datatype Piece = Piece(data: bytes, stage: Stage)

  /** What the journal holds of one stream. */
  function PiecesOf(frames: seq<Frame>, s: Stdio): seq<Piece> {
    if frames == [] then []
    else
      var f := frames[0];
      (if f.kind.Chunk? && f.kind.stream == s then [Piece(f.data, f.stage)] else []) + PiecesOf(frames[1..], s)
  }

  function CompletePieces(lines: seq<bytes>, redact: bytes -> bytes): (r: seq<Piece>)
    ensures |r| == |lines| && forall i :: 0 <= i < |r| ==> r[i] == Piece(redact(lines[i]), Complete)
  {
    seq(|lines|, i requires 0 <= i < |lines| => Piece(redact(lines[i]), Complete))
  }

  /** A whole text as it is recorded: each line, then the rest, redacted by itself. */
  function Ended(text: bytes, stage: Stage, redact: bytes -> bytes): seq<Piece> {
    CompletePieces(Lines(text), redact) + if Rest(text) == [] then [] else [Piece(redact(Rest(text)), stage)]
  }

  /** A stream's octets, in one text per prefix limit reached, the last still open. */
  function Texts(events: seq<Event>, s: Stdio): (r: seq<bytes>)
    ensures r != []
  {
    if events == [] then [[]]
    else
      var before := Texts(events[..|events| - 1], s);
      var e := events[|events| - 1];
      if !(e.kind.Chunk? && e.kind.stream == s) then before
      else
        var grown := before[..|before| - 1] + [before[|before| - 1] + e.data];
        if e.kind.limit then grown + [[]] else grown
  }

  function EndedAll(texts: seq<bytes>, redact: bytes -> bytes): seq<Piece> {
    if texts == [] then [] else EndedAll(texts[..|texts| - 1], redact) + Ended(texts[|texts| - 1], TruncatedPrefixLimit, redact)
  }

  /** The frames of a stream from its texts alone. */
  function Reference(texts: seq<bytes>, redact: bytes -> bytes): seq<Piece>
    requires texts != []
  {
    EndedAll(texts[..|texts| - 1], redact) + Ended(texts[|texts| - 1], EofPartial, redact)
  }

  function ObservedAll(events: seq<Event>, env: Storing): (Journal, bool) {
    if events == [] then (EMPTY, true)
    else
      var (j, ok) := ObservedAll(events[..|events| - 1], env);
      if ok then Observed(j, events[|events| - 1], env) else (j, false)
  }

  // ------------------------------------------------- independence of chunking

  lemma {:induction false} PiecesConcat(a: seq<Frame>, f: Frame, s: Stdio)
    ensures PiecesOf(a + [f], s)
              == if f.kind.Chunk? && f.kind.stream == s then PiecesOf(a, s) + [Piece(f.data, f.stage)] else PiecesOf(a, s)
  {
    if a == [] {
      assert a + [f] == [f] && PiecesOf([f][1..], s) == [];
    } else {
      assert (a + [f])[1..] == a[1..] + [f];
      PiecesConcat(a[1..], f, s);
    }
  }

  predicate On(kind: Kind, s: Stdio) {
    kind.Chunk? && kind.stream == s
  }

  lemma FramedPieces(j: Journal, kind: Kind, op: nat, data: bytes, stage: Stage, env: Storing, s: Stdio)
    requires Framed(j, kind, op, data, stage, env).1
    ensures var k := Framed(j, kind, op, data, stage, env).0;
      && k.pending == j.pending
      && PiecesOf(k.frames, s) == if On(kind, s) then PiecesOf(j.frames, s) + [Piece(env.redact(data), stage)] else PiecesOf(j.frames, s)
  {
    PiecesConcat(j.frames, Frame(kind, op, env.redact(data), stage, j.sequence + 1), s);
  }

  lemma {:induction false} FramedAllPieces(j: Journal, kind: Kind, op: nat, lines: seq<bytes>, env: Storing, s: Stdio)
    requires FramedAll(j, kind, op, lines, env).1
    ensures var k := FramedAll(j, kind, op, lines, env).0;
      && k.pending == j.pending
      && PiecesOf(k.frames, s)
           == if On(kind, s) then PiecesOf(j.frames, s) + CompletePieces(lines, env.redact) else PiecesOf(j.frames, s)
    decreases |lines|
  {
    hide Framed, PiecesOf, CompletePieces;
    if lines == [] {
      CompleteConcat([], [], env.redact);
      assert PiecesOf(j.frames, s) + [] == PiecesOf(j.frames, s);
    } else {
      var first := Framed(j, kind, op, lines[0], Complete, env).0;
      FramedPieces(j, kind, op, lines[0], Complete, env, s);
      FramedAllPieces(first, kind, op, lines[1..], env, s);
      CompleteCons(lines, env.redact);
      assert PiecesOf(j.frames, s) + ([Piece(env.redact(lines[0]), Complete)] + CompletePieces(lines[1..], env.redact))
          == (PiecesOf(j.frames, s) + [Piece(env.redact(lines[0]), Complete)]) + CompletePieces(lines[1..], env.redact);
    }
  }

  /** The journal after a successful run of events: complete lines are recorded,
      what follows the last LF of each stream's open text is pending. */
  ghost predicate UpTo(j: Journal, texts: seq<bytes>, s: Stdio, redact: bytes -> bytes)
    requires texts != []
  {
    var last := |texts| - 1;
    && Pending(j, s) == Rest(texts[last])
    && PiecesOf(j.frames, s) == EndedAll(texts[..last], redact) + CompletePieces(Lines(texts[last]), redact)
  }

  function Grown(texts: seq<bytes>, data: bytes, limit: bool): (r: seq<bytes>)
    requires texts != []
    ensures r != []
  {
    var grown := texts[..|texts| - 1] + [texts[|texts| - 1] + data];
    if limit then grown + [[]] else grown
  }

  lemma TextsNext(events: seq<Event>, e: Event, s: Stdio)
    ensures Texts(events + [e], s) ==
      if On(e.kind, s) then Grown(Texts(events, s), e.data, e.kind.limit) else Texts(events, s)
  {
    assert (events + [e])[..|events|] == events;
  }

  lemma CompleteCons(lines: seq<bytes>, redact: bytes -> bytes)
    requires lines != []
    ensures CompletePieces(lines, redact) == [Piece(redact(lines[0]), Complete)] + CompletePieces(lines[1..], redact)
  {
  }

  lemma CompleteConcat(a: seq<bytes>, b: seq<bytes>, redact: bytes -> bytes)
    ensures CompletePieces(a + b, redact) == CompletePieces(a, redact) + CompletePieces(b, redact)
    ensures CompletePieces([], redact) == []
  {
  }

  lemma EndedAllNext(texts: seq<bytes>, t: bytes, redact: bytes -> bytes)
    ensures EndedAll(texts + [t], redact) == EndedAll(texts, redact) + Ended(t, TruncatedPrefixLimit, redact)
  {
    assert (texts + [t])[..|texts|] == texts;
  }

  /** An event of another stream, or of none, leaves a stream alone. */
  lemma OtherStream(j: Journal, e: Event, env: Storing, s: Stdio)
    requires Observed(j, e, env).1 && !On(e.kind, s)
    ensures var k := Observed(j, e, env).0; Pending(k, s) == Pending(j, s) && PiecesOf(k.frames, s) == PiecesOf(j.frames, s)
  {
    hide Framed, FramedAll, PiecesOf, Lines, Rest;
    if e.kind.Message? {
      FramedPieces(j, e.kind, e.operation, e.data, Complete, env, s);
    } else {
      var data := Pending(j, e.kind.stream) + e.data;
      var lined := FramedAll(j, e.kind, e.operation, Lines(data), env).0;
      FramedAllPieces(j, e.kind, e.operation, Lines(data), env, s);
      if e.kind.limit && Rest(data) != [] {
        var kept := lined.(pending := lined.pending[e.kind.stream := Rest(data)] - {e.kind.stream});
        FramedPieces(kept, e.kind, e.operation, Rest(data), TruncatedPrefixLimit, env, s);
      }
    }
  }

  /** An event of a stream records the lines it completes. */
  lemma SameStream(j: Journal, e: Event, env: Storing, s: Stdio)
    requires Observed(j, e, env).1 && On(e.kind, s)
    ensures var k := Observed(j, e, env).0;
      var data := Pending(j, s) + e.data;
      var lined := PiecesOf(j.frames, s) + CompletePieces(Lines(data), env.redact);
      && Pending(k, s) == (if e.kind.limit then [] else Rest(data))
      && PiecesOf(k.frames, s)
           == if e.kind.limit && Rest(data) != [] then lined + [Piece(env.redact(Rest(data)), TruncatedPrefixLimit)] else lined
  {
    hide Framed, FramedAll, PiecesOf, Lines, Rest, CompletePieces;
    var data := Pending(j, s) + e.data;
    var lined := FramedAll(j, e.kind, e.operation, Lines(data), env).0;
    FramedAllPieces(j, e.kind, e.operation, Lines(data), env, s);
    if e.kind.limit && Rest(data) != [] {
      var kept := lined.(pending := lined.pending[s := Rest(data)]);
      FramedPieces(kept.(pending := kept.pending - {s}), e.kind, e.operation, Rest(data), TruncatedPrefixLimit, env, s);
    }
  }

  /** One event moves its stream on and leaves the other alone. */
  lemma ObserveKeeps(j: Journal, events: seq<Event>, e: Event, env: Storing, s: Stdio)
    requires Observed(j, e, env).1 && UpTo(j, Texts(events, s), s, env.redact)
    ensures UpTo(Observed(j, e, env).0, Texts(events + [e], s), s, env.redact)
  {
    hide Observed, PiecesOf, Lines, Rest, EndedAll, CompletePieces, Texts;
    TextsNext(events, e, s);
    if !On(e.kind, s) {
      OtherStream(j, e, env, s);
    } else {
      var texts := Texts(events, s);
      var last := |texts| - 1;
      var text := texts[last] + e.data;
      SameStream(j, e, env, s);
      LinesConcat(texts[last], e.data);
      CompleteConcat(Lines(texts[last]), Lines(Rest(texts[last]) + e.data), env.redact);
      NoLine([]);
      EndedAllNext(texts[..last], text, env.redact);
      var grown := Grown(texts, e.data, e.kind.limit);
      if e.kind.limit {
        assert grown[..|grown| - 1] == texts[..last] + [text] && grown[|grown| - 1] == [];
      } else {
        assert grown[..|grown| - 1] == texts[..last] && grown[|grown| - 1] == text;
      }
    }
  }

  lemma {:induction false} ObservedAllUpTo(events: seq<Event>, env: Storing, s: Stdio)
    requires ObservedAll(events, env).1
    ensures UpTo(ObservedAll(events, env).0, Texts(events, s), s, env.redact)
    decreases |events|
  {
    hide Observed;
    if events == [] {
      NoLine([]);
      CompleteConcat([], [], env.redact);
      assert PiecesOf([], s) == [] && EndedAll([], env.redact) == [];
    } else {
      hide UpTo;
      var before := events[..|events| - 1];
      ObservedAllUpTo(before, env, s);
      assert before + [events[|events| - 1]] == events;
      ObserveKeeps(ObservedAll(before, env).0, before, events[|events| - 1], env, s);
    }
  }

  lemma FlushKeeps(j: Journal, of: Stdio, env: Storing, s: Stdio)
    requires Flushed(j, of, env).1
    ensures var k := Flushed(j, of, env).0;
      && Pending(k, s) == (if s == of then [] else Pending(j, s))
      && PiecesOf(k.frames, s)
           == if s == of && Pending(j, s) != [] then PiecesOf(j.frames, s) + [Piece(env.redact(Pending(j, s)), EofPartial)]
              else PiecesOf(j.frames, s)
  {
    hide Framed, PiecesOf;
    if Pending(j, of) != [] {
      FramedPieces(j, Chunk(of, false), 0, Pending(j, of), EofPartial, env, s);
    }
  }

  /** However a stream's octets are split into events, and whatever the other
      stream does meanwhile, what finish leaves recorded of it is the framing of
      its whole text, one text per prefix limit reached. */
  lemma FramingIgnoresChunking(events: seq<Event>, env: Storing, s: Stdio)
    requires ObservedAll(events, env).1 && Finished(ObservedAll(events, env).0, env).1
    ensures PiecesOf(Finished(ObservedAll(events, env).0, env).0.frames, s) == Reference(Texts(events, s), env.redact)
  {
    hide Flushed, PiecesOf, Observed, ObservedAll, Lines, Rest, EndedAll, CompletePieces;
    var j := ObservedAll(events, env).0;
    ObservedAllUpTo(events, env, s);
    FlushKeeps(j, Stdout, env, s);
    FlushKeeps(Flushed(j, Stdout, env).0, Stderr, env, s);
    var texts := Texts(events, s);
    var head := EndedAll(texts[..|texts| - 1], env.redact) + CompletePieces(Lines(texts[|texts| - 1]), env.redact);
    assert head + [] == head;
  }

  /** Two runs whose events carry the same octets of a stream record the same frames of it. */
  lemma SameOctetsSameFrames(a: seq<Event>, b: seq<Event>, env: Storing, s: Stdio)
    requires ObservedAll(a, env).1 && Finished(ObservedAll(a, env).0, env).1
    requires ObservedAll(b, env).1 && Finished(ObservedAll(b, env).0, env).1
    requires Octets(a, s) == Octets(b, s) && Unlimited(a, s) && Unlimited(b, s)
    ensures PiecesOf(Finished(ObservedAll(a, env).0, env).0.frames, s)
         == PiecesOf(Finished(ObservedAll(b, env).0, env).0.frames, s)
         == Ended(Octets(a, s), EofPartial, env.redact)
  {
    hide Finished, ObservedAll, PiecesOf, Texts, Ended;
    FramingIgnoresChunking(a, env, s);
    FramingIgnoresChunking(b, env, s);
    OneText(a, s);
    OneText(b, s);
    var t := Octets(a, s);
    var texts: seq<bytes> := [t];
    assert texts[..0] == [] && EndedAll(texts[..0], env.redact) == [];
    assert [] + Ended(t, EofPartial, env.redact) == Ended(t, EofPartial, env.redact);
  }

  function Octets(events: seq<Event>, s: Stdio): bytes {
    if events == [] then []
    else
      var e := events[|events| - 1];
      if On(e.kind, s) then Octets(events[..|events| - 1], s) + e.data else Octets(events[..|events| - 1], s)
  }

  predicate Unlimited(events: seq<Event>, s: Stdio) {
    forall i :: 0 <= i < |events| && On(events[i].kind, s) ==> !events[i].kind.limit
  }

  lemma {:induction false} OneText(events: seq<Event>, s: Stdio)
    requires Unlimited(events, s)
    ensures Texts(events, s) == [Octets(events, s)]
    decreases |events|
  {
    if events != [] {
      OneText(events[..|events| - 1], s);
    }
  }

  // ------------------------------------------------------------ segmentation

  /** The size of the next segment: back from 1 MiB to a rune start. */
  function SegmentSize(frame: bytes): (n: nat)
    ensures n <= |frame| && n <= FRAME_BUDGET
  {
    if |frame| <= FRAME_BUDGET then |frame| else BackToRune(frame, FRAME_BUDGET)
  }

  function BackToRune(frame: bytes, size: nat): (n: nat)
    requires size < |frame|
    ensures n <= size && (n > 0 ==> RuneStart(frame[n])) && forall i :: n < i <= size ==> !RuneStart(frame[i])
  {
    if size > 0 && !RuneStart(frame[size]) then BackToRune(frame, size - 1) else size
  }

  /** The loop makes no progress exactly when a window of 1 MiB holds no rune start. */
  lemma StallsExactly(frame: bytes)
    requires frame != []
    ensures SegmentSize(frame) == 0 <==> |frame| > FRAME_BUDGET && forall i :: 1 <= i <= FRAME_BUDGET ==> !RuneStart(frame[i])
  {
    if |frame| > FRAME_BUDGET {
      var n := BackToRune(frame, FRAME_BUDGET);
      assert n > 0 ==> 1 <= n <= FRAME_BUDGET && RuneStart(frame[n]);
    }
  }

  /** A valid text is cut within three octets of 1 MiB, and between runes. */
  lemma ValidSegment(frame: bytes)
    requires Valid(frame) && frame != []
    ensures SegmentSize(frame) > 0
    ensures SegmentSize(frame) < |frame| ==> SegmentSize(frame) + 3 >= FRAME_BUDGET
    ensures Valid(frame[..SegmentSize(frame)]) && Valid(frame[SegmentSize(frame)..])
  {
    hide Valid;
    var n := SegmentSize(frame);
    if n < |frame| {
      var j := StartNearby(frame, FRAME_BUDGET);
      assert n >= j;
      StartIsBoundary(frame, n);
    } else {
      assert frame[..n] == frame && frame[n..] == [];
      assert Valid([]) by { EmptyIsValid(); }
    }
  }

  lemma EmptyIsValid()
    ensures Valid([])
  {
  }

  method NextSize(frame: bytes) returns (size: nat)
    ensures size == SegmentSize(frame)
  {
    size := if FRAME_BUDGET < |frame| then FRAME_BUDGET else |frame|;
    while size > 0 && size < |frame| && !RuneStart(frame[size])
      invariant size <= |frame|
      invariant if |frame| <= FRAME_BUDGET then size == |frame| else size <= FRAME_BUDGET && BackToRune(frame, size) == SegmentSize(frame)
    {
      size := size - 1;
    }
  }

  lemma NothingJoined()
    ensures Joined([]) == [] && Segments([], true) && Segments([], false)
  {
  }

  /** Segments as the store takes them; `all` when nothing of the frame is left. */
  ghost predicate Segments(parts: seq<bytes>, all: bool) {
    && (forall p :: p in parts ==> p != [] && |p| <= FRAME_BUDGET && Valid(p))
    && (forall i :: 0 <= i < |parts| - (if all then 1 else 0) ==> |parts[i]| + 3 >= FRAME_BUDGET)
  }

  lemma NextSegment(parts: seq<bytes>, rest: bytes)
    requires Segments(parts, false) && Valid(rest) && rest != []
    ensures var n := SegmentSize(rest);
      0 < n <= |rest| && Valid(rest[n..]) && Segments(parts + [rest[..n]], n == |rest|)
  {
    hide Valid, SegmentSize;
    ValidSegment(rest);
    var n := SegmentSize(rest);
    var more := parts + [rest[..n]];
    forall p | p in more ensures p != [] && |p| <= FRAME_BUDGET && Valid(p) {
      assert p in parts || p == rest[..n];
    }
  }

  /** The artifact loop of `frame`; `room` is how many artifacts the repository
      still takes. What json.Marshal and the redaction of a frame give is UTF-8. */
  method Segment(frame: bytes, room: nat) returns (parts: seq<bytes>, ok: bool)
    requires Valid(frame)
    ensures Segments(parts, ok)
    ensures ok ==> Joined(parts) == frame
    ensures !ok ==> |parts| == room && Joined(parts) < frame
  {
    hide Valid, SegmentSize, Joined, Segments;
    parts := [];
    NothingJoined();
    var rest := frame;
    while |rest| > 0
      invariant Valid(rest) && |parts| <= room
      invariant Joined(parts) + rest == frame
      invariant Segments(parts, rest == [])
      decreases |rest|
    {
      var size := NextSize(rest);
      NextSegment(parts, rest);
      if |parts| == room {
        return parts, false;
      }
      JoinedConcat(parts, rest[..size]);
      assert rest == rest[..size] + rest[size..];
      assert Joined(parts) + rest == Joined(parts) + rest[..size] + rest[size..];
      parts, rest := parts + [rest[..size]], rest[size..];
    }
    return parts, true;
  }

  lemma {:induction false} JoinedConcat(parts: seq<bytes>, p: bytes)
    ensures Joined(parts + [p]) == Joined(parts) + p
  {
    if parts == [] {
      assert parts + [p] == [p] && Joined([p][1..]) == [];
    } else {
      assert (parts + [p])[1..] == parts[1..] + [p];
      JoinedConcat(parts[1..], p);
    }
  }

  // ------------------------------------------------------ what is never refused

  lemma {:induction false} FramedAllSucceeds(j: Journal, kind: Kind, op: nat, lines: seq<bytes>, env: Storing)
    requires forall n :: env.accepts(n)
    ensures FramedAll(j, kind, op, lines, env).1
    decreases |lines|
  {
    if lines != [] { FramedAllSucceeds(Framed(j, kind, op, lines[0], Complete, env).0, kind, op, lines[1..], env); }
  }

  /** While every frame can be stored, an event is refused exactly if it would make
      the unframed text of its stream longer than 1 MiB, and a finish never. */
  lemma RefusesExactly(j: Journal, e: Event, env: Storing)
    requires forall n :: env.accepts(n)
    ensures Observed(j, e, env).1 <==> e.kind.Message? || |Pending(j, e.kind.stream)| + |e.data| <= 1048576
    ensures Finished(j, env).1
  {
    hide Lines, Rest, FramedAll;
    if e.kind.Chunk? {
      FramedAllSucceeds(j, e.kind, e.operation, Lines(Pending(j, e.kind.stream) + e.data), env);
    }
  }

  /** A frame has the next number; it is recorded, redacted and last, exactly if it
      can be stored. A complete request or response is one such frame. */
  lemma FramesExactly(j: Journal, e: Event, env: Storing)
    requires e.kind.Message?
    ensures var (k, ok) := Observed(j, e, env);
      && k.sequence == j.sequence + 1 && k.pending == j.pending
      && (ok <==> env.accepts(j.sequence + 1))
      && k.frames == j.frames + if ok then [Frame(e.kind, e.operation, env.redact(e.data), Complete, j.sequence + 1)] else []
  {
  }
}
