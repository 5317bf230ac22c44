/** The reference-first projection of a model request, harness/context.go:56-189:
    large arguments of executed calls and large or media tool output are stored
    and replaced by references, in place. */
module ReferenceProjection {
  import opened CallMatching
  import opened Wrappers

  const INLINE_LIMIT := 0x1000
  const STORE_LIMIT := 0x80_0000
  const FRAME_LIMIT := 128

  datatype Call = Call(id: string, arguments: string)

  /** `json` is the marshalled block; `payload` the octets of its data and URLs. */
  datatype Part =
    | Text(text: string)
    | Media(valid: bool, frames: nat, payload: nat, json: string)
    | Reference(reference: nat, described: bool)
    | OtherPart

  datatype ToolResult = ToolResult(callId: string, parts: seq<Part>)

  datatype Block = Block(call: Option<Call>, result: Option<ToolResult>, rest: string)

  datatype Message = Message(role: Role, content: seq<Block>)

  datatype Position = Position(message: nat, block: nat)

  datatype Refusal = WrongSession | BadArguments | StoreFailed | Cancelled | TooLarge | BadMedia

  datatype Outcome = Done | Failed(why: Refusal)

  // -------------------------------------------------------- blocks in order

  datatype Step = Step(at: Position, mark: Mark)

  function MarkOf(role: Role, block: Block): Mark {
    if role == Assistant && block.call.Some? then IsCall(block.call.value.id)
    else if role == Tool && block.result.Some? then IsResult(block.result.value.callId)
    else Neither
  }

  function BlockSteps(messages: seq<Message>, m: nat, b: nat): (r: seq<Step>)
    requires m < |messages| && b <= |messages[m].content|
    ensures |r| == b && forall i :: 0 <= i < b ==> r[i] == Step(Position(m, i), MarkOf(messages[m].role, messages[m].content[i]))
  {
    seq(b, i requires 0 <= i < b => Step(Position(m, i), MarkOf(messages[m].role, messages[m].content[i])))
  }

  /** The blocks of the first `m` messages in reading order. */
  function Steps(messages: seq<Message>, m: nat): seq<Step>
    requires m <= |messages|
  {
    if m == 0 then [] else Steps(messages, m - 1) + BlockSteps(messages, m - 1, |messages[m - 1].content|)
  }

  function Marks(steps: seq<Step>): (r: seq<Mark>)
    ensures |r| == |steps| && forall i :: 0 <= i < |r| ==> r[i] == steps[i].mark
  {
    seq(|steps|, i requires 0 <= i < |steps| => steps[i].mark)
  }

  function Places(steps: seq<Step>, indices: seq<nat>): (r: seq<Position>)
    requires forall i :: 0 <= i < |indices| ==> indices[i] < |steps|
    ensures |r| == |indices| && forall i :: 0 <= i < |r| ==> r[i] == steps[indices[i]].at
  {
    seq(|indices|, i requires 0 <= i < |indices| => steps[indices[i]].at)
  }

  /** Reading order is by message, then by block. */
  predicate Before(p: Position, q: Position) {
    p.message < q.message || (p.message == q.message && p.block < q.block)
  }

  predicate StepOk(messages: seq<Message>, m: nat, step: Step)
    requires m <= |messages|
  {
    && step.at.message < m && step.at.block < |messages[step.at.message].content|
    && step.mark == MarkOf(messages[step.at.message].role, messages[step.at.message].content[step.at.block])
  }

  ghost predicate InOrder(steps: seq<Step>) {
    forall i, j :: 0 <= i < j < |steps| ==> Before(steps[i].at, steps[j].at)
  }

  lemma {:induction false} StepsInOrder(messages: seq<Message>, m: nat)
    requires m <= |messages|
    ensures InOrder(Steps(messages, m))
    ensures forall i :: 0 <= i < |Steps(messages, m)| ==> StepOk(messages, m, Steps(messages, m)[i])
  {
    if m > 0 {
      var first, last := Steps(messages, m - 1), BlockSteps(messages, m - 1, |messages[m - 1].content|);
      var all := first + last;
      StepsInOrder(messages, m - 1);
      forall i | 0 <= i < |all| ensures StepOk(messages, m, all[i]) {
        if i < |first| { assert StepOk(messages, m - 1, first[i]); }
      }
      forall i, j | 0 <= i < j < |all| ensures Before(all[i].at, all[j].at) {
        if i < |first| { assert StepOk(messages, m - 1, first[i]); }
      }
    }
  }

  lemma {:induction false} EveryBlockIsAStep(messages: seq<Message>, m: nat, p: Position) returns (i: nat)
    requires m <= |messages| && p.message < m && p.block < |messages[p.message].content|
    ensures i < |Steps(messages, m)| && Steps(messages, m)[i].at == p
  {
    if p.message == m - 1 {
      i := |Steps(messages, m - 1)| + p.block;
    } else {
      i := EveryBlockIsAStep(messages, m - 1, p);
    }
  }

  lemma ExecutedInRange(steps: seq<Step>)
    ensures forall i :: 0 <= i < |Executed(Marks(steps))| ==> Executed(Marks(steps))[i] < |steps|
  {
    var e := Executed(Marks(steps));
    assert forall i :: 0 <= i < |e| ==> e[i] in e;
  }

  lemma PendingInRange(steps: seq<Step>, id: string)
    ensures forall i :: 0 <= i < |Pending(Marks(steps), id)| ==> Pending(Marks(steps), id)[i] < |steps|
  {
    var e := Pending(Marks(steps), id);
    assert forall i :: 0 <= i < |e| ==> e[i] in e;
  }

  function PendingAt(steps: seq<Step>, id: string): seq<Position> {
    PendingInRange(steps, id);
    Places(steps, Pending(Marks(steps), id))
  }

  function ExecutedIn(steps: seq<Step>): seq<Position> {
    ExecutedInRange(steps);
    Places(steps, Executed(Marks(steps)))
  }

  /** The positions of executed calls. */
  function ExecutedAt(messages: seq<Message>): seq<Position> {
    ExecutedIn(Steps(messages, |messages|))
  }

  lemma PendingNext(steps: seq<Step>, x: Step, id: string)
    ensures PendingAt(steps + [x], id)
              == if x.mark == IsCall(id) then PendingAt(steps, id) + [x.at]
                 else if x.mark == IsResult(id) then [] else PendingAt(steps, id)
  {
    PendingInRange(steps, id);
    assert Marks(steps + [x])[..|steps|] == Marks(steps);
  }

  lemma ExecutedNext(steps: seq<Step>, x: Step)
    ensures ExecutedIn(steps + [x])
              == if x.mark.IsResult? && |PendingAt(steps, x.mark.id)| == 1
                 then ExecutedIn(steps) + PendingAt(steps, x.mark.id) else ExecutedIn(steps)
  {
    ExecutedInRange(steps);
    if x.mark.IsResult? { PendingInRange(steps, x.mark.id); }
    assert Marks(steps + [x])[..|steps|] == Marks(steps);
  }

  // ---------------------------------------------------------- what is promised

  function Size(parts: seq<Part>): nat {
    if parts == [] then 0
    else Size(parts[..|parts| - 1]) + if parts[|parts| - 1].Text? then |parts[|parts| - 1].text| else 0
  }

  /** Stored verbatim: the reference reads back the original. */
  predicate Stored(texts: seq<string>, reference: nat, text: string) {
    reference < |texts| && texts[reference] == text
  }

  predicate MediaFits(part: Part)
    requires part.Media?
  {
    part.frames <= FRAME_LIMIT && part.payload <= STORE_LIMIT * 3 / 4 && |part.json| <= STORE_LIMIT
  }

  /** A part of a tool result, and what stands for it; `heavy`: the result's
      text is over the inline limit. */
  predicate PartProjected(before: Part, after: Part, heavy: bool, texts: seq<string>) {
    match before
    case Media(valid, _, _, json) =>
      valid && MediaFits(before) && after.Reference? && after.described && Stored(texts, after.reference, json)
    case Text(text) =>
      if heavy && text != "" then
        |text| <= STORE_LIMIT && after.Reference? && !after.described && Stored(texts, after.reference, text)
      else after == before
    case _ => after == before
  }

  predicate ResultShape(before: ToolResult, after: ToolResult) {
    after.callId == before.callId && |after.parts| == |before.parts|
  }

  /** The first `n` parts are projected, the others as they were. */
  predicate ResultProjected(before: ToolResult, after: ToolResult, n: nat, texts: seq<string>) {
    && ResultShape(before, after)
    && n <= |before.parts|
    && forall i :: 0 <= i < |before.parts| ==>
         if i < n then PartProjected(before.parts[i], after.parts[i], Size(before.parts) > INLINE_LIMIT, texts)
         else after.parts[i] == before.parts[i]
  }

  predicate InRange(messages: seq<Message>, p: Position) {
    p.message < |messages| && p.block < |messages[p.message].content|
  }

  function BlockAt(messages: seq<Message>, p: Position): Block
    requires InRange(messages, p)
  {
    messages[p.message].content[p.block]
  }

  function SetBlock(messages: seq<Message>, p: Position, block: Block): seq<Message>
    requires InRange(messages, p)
  {
    var message := messages[p.message];
    messages[p.message := message.(content := message.content[p.block := block])]
  }

  /** Message and block counts and roles are kept. */
  ghost predicate SameShape(a: seq<Message>, b: seq<Message>) {
    && |a| == |b|
    && (forall m :: 0 <= m < |a| ==> a[m].role == b[m].role && |a[m].content| == |b[m].content|)
  }

  lemma SetBlockIs(messages: seq<Message>, p: Position, block: Block)
    requires InRange(messages, p)
    ensures var after := SetBlock(messages, p, block);
      && SameShape(messages, after) && InRange(after, p) && BlockAt(after, p) == block
      && forall q :: InRange(messages, q) && q != p ==> InRange(after, q) && BlockAt(after, q) == BlockAt(messages, q)
  {
  }

  /** A call too large to be sent again in full. */
  predicate Large(block: Block) {
    block.call.Some? && |block.call.value.arguments| > INLINE_LIMIT
  }

  /** The call's arguments were stored and replaced, and nothing else changed. */
  predicate Rewritten(before: Block, after: Block, reference: nat, texts: seq<string>, marshal: nat -> string) {
    && Large(before)
    && after == before.(call := Some(before.call.value.(arguments := marshal(reference))))
    && Stored(texts, reference, before.call.value.arguments)
  }

  /** `moved`: the calls rewritten so far, each with its reference. */
  ghost predicate CallsRewritten(
    before: seq<Message>, after: seq<Message>, moved: map<Position, nat>, texts: seq<string>, marshal: nat -> string)
  {
    && SameShape(before, after)
    && (forall p :: p in moved ==> InRange(before, p))
    && forall p :: InRange(before, p) ==>
         if p in moved then Rewritten(BlockAt(before, p), BlockAt(after, p), moved[p], texts, marshal)
         else BlockAt(after, p) == BlockAt(before, p)
  }

  lemma RewriteOne(
    before: seq<Message>, after: seq<Message>, moved: map<Position, nat>, texts: seq<string>, marshal: nat -> string,
    p: Position)
    requires CallsRewritten(before, after, moved, texts, marshal)
    requires InRange(before, p) && InRange(after, p) && p !in moved && Large(BlockAt(before, p))
    ensures var call := BlockAt(before, p).call.value;
      var block := BlockAt(after, p).(call := Some(call.(arguments := marshal(|texts|))));
      CallsRewritten(before, SetBlock(after, p, block), moved[p := |texts|], texts + [call.arguments], marshal)
  {
    var call := BlockAt(before, p).call.value;
    var block := BlockAt(after, p).(call := Some(call.(arguments := marshal(|texts|))));
    SetBlockIs(after, p, block);
  }

  /** A tool result in its block, and what becomes of it. */
  predicate BlockProjected(role: Role, before: Block, after: Block, texts: seq<string>) {
    if role == Tool && before.result.Some? then
      && after.result.Some? && after == before.(result := after.result)
      && ResultProjected(before.result.value, after.result.value, |before.result.value.parts|, texts)
    else after == before
  }

  /** The blocks before `cursor` are projected, the others as they were. */
  ghost predicate ProjectedBefore(before: seq<Message>, after: seq<Message>, cursor: Position, texts: seq<string>) {
    && SameShape(before, after)
    && forall p :: InRange(before, p) ==>
         if Before(p, cursor) then BlockProjected(before[p.message].role, BlockAt(before, p), BlockAt(after, p), texts)
         else BlockAt(after, p) == BlockAt(before, p)
  }

  /** The result's first parts are projected, however many. */
  ghost predicate BlockPartly(role: Role, before: Block, after: Block, texts: seq<string>) {
    if role == Tool && before.result.Some? then
      && after.result.Some? && after == before.(result := after.result)
      && exists n: nat :: ResultProjected(before.result.value, after.result.value, n, texts)
    else after == before
  }

  /** Wherever the projection stopped, what it replaced reads back. */
  ghost predicate PartlyProjected(before: seq<Message>, after: seq<Message>, texts: seq<string>) {
    && SameShape(before, after)
    && forall p :: InRange(before, p) ==>
         BlockPartly(before[p.message].role, BlockAt(before, p), BlockAt(after, p), texts)
  }

  lemma ProjectedMore(before: Block, after: Block, role: Role, texts: seq<string>, more: seq<string>)
    requires BlockProjected(role, before, after, texts) && texts <= more
    ensures BlockProjected(role, before, after, more)
  {
  }

  lemma ProjectedNext(
    before: seq<Message>, after: seq<Message>, cursor: Position, texts: seq<string>, block: Block, more: seq<string>)
    requires ProjectedBefore(before, after, cursor, texts) && texts <= more
    requires InRange(before, cursor) && InRange(after, cursor)
    requires BlockProjected(before[cursor.message].role, BlockAt(before, cursor), block, more)
    ensures ProjectedBefore(before, SetBlock(after, cursor, block), Position(cursor.message, cursor.block + 1), more)
  {
    hide BlockProjected;
    var next := SetBlock(after, cursor, block);
    SetBlockIs(after, cursor, block);
    forall p | InRange(before, p) && Before(p, Position(cursor.message, cursor.block + 1))
      ensures BlockProjected(before[p.message].role, BlockAt(before, p), BlockAt(next, p), more)
    {
      if p != cursor {
        ProjectedMore(BlockAt(before, p), BlockAt(after, p), before[p.message].role, texts, more);
      }
    }
  }

  /** A part for which the projection must fail with `why`. */
  predicate Faulty(part: Part, heavy: bool, why: Refusal) {
    match part
    case Media(valid, _, _, _) => if !valid then why == BadMedia else !MediaFits(part) && why == TooLarge
    case Text(text) => heavy && |text| > STORE_LIMIT && why == TooLarge
    case _ => false
  }

  ghost predicate FaultyResult(t: ToolResult, why: Refusal) {
    exists i :: 0 <= i < |t.parts| && Faulty(t.parts[i], Size(t.parts) > INLINE_LIMIT, why)
  }

  ghost predicate FaultyMessages(messages: seq<Message>, why: Refusal) {
    exists p :: InRange(messages, p) && messages[p.message].role == Tool
                && BlockAt(messages, p).result.Some? && FaultyResult(BlockAt(messages, p).result.value, why)
  }

  /** Every part of the result may be shown or stored: media are valid, with at
      most 128 frames, 6 MiB of payload and 8 MiB as JSON, and no text is over
      8 MiB, unless all of them together are within 4 KiB. */
  ghost predicate Fits(t: ToolResult) {
    forall i :: 0 <= i < |t.parts| ==>
      match t.parts[i]
      case Media(valid, frames, payload, json) => valid && frames <= 128 && payload <= 6291456 && |json| <= 8388608
      case Text(text) => Size(t.parts) <= 4096 || |text| <= 8388608
      case _ => true
  }

  ghost predicate AllFit(messages: seq<Message>) {
    forall p :: InRange(messages, p) && messages[p.message].role == Tool && BlockAt(messages, p).result.Some? ==>
      Fits(BlockAt(messages, p).result.value)
  }

  /** The arguments of every executed call over 4 KiB are JSON. */
  ghost predicate ArgumentsValid(messages: seq<Message>, validJson: string -> bool) {
    forall p :: p in ExecutedAt(messages) && InRange(messages, p) && BlockAt(messages, p).call.Some? ==>
      |BlockAt(messages, p).call.value.arguments| <= 4096 || validJson(BlockAt(messages, p).call.value.arguments)
  }

  lemma FitsMeans(t: ToolResult)
    ensures Fits(t) <==> forall why :: !FaultyResult(t, why)
  {
    hide Size;
    if why :| FaultyResult(t, why) {
      var i :| 0 <= i < |t.parts| && Faulty(t.parts[i], Size(t.parts) > INLINE_LIMIT, why);
    }
    forall i | 0 <= i < |t.parts| ensures Faulty(t.parts[i], Size(t.parts) > INLINE_LIMIT, TooLarge) ==> FaultyResult(t, TooLarge) {}
    forall i | 0 <= i < |t.parts| ensures Faulty(t.parts[i], Size(t.parts) > INLINE_LIMIT, BadMedia) ==> FaultyResult(t, BadMedia) {}
  }

  lemma FaultKinds(t: ToolResult, why: Refusal)
    requires FaultyResult(t, why)
    ensures why == TooLarge || why == BadMedia
  {
    hide Size;
  }

  lemma FaultKindsOf(messages: seq<Message>, why: Refusal)
    requires FaultyMessages(messages, why)
    ensures why == TooLarge || why == BadMedia
  {
    hide FaultyResult;
    var p :| InRange(messages, p) && messages[p.message].role == Tool
             && BlockAt(messages, p).result.Some? && FaultyResult(BlockAt(messages, p).result.value, why);
    FaultKinds(BlockAt(messages, p).result.value, why);
  }

  lemma BadArgumentsAt(messages: seq<Message>, validJson: string -> bool, i: nat)
    requires i < |ExecutedAt(messages)| && InRange(messages, ExecutedAt(messages)[i])
    requires Large(BlockAt(messages, ExecutedAt(messages)[i]))
    requires !validJson(BlockAt(messages, ExecutedAt(messages)[i]).call.value.arguments)
    ensures !ArgumentsValid(messages, validJson)
  {
    hide ExecutedAt;
    assert ExecutedAt(messages)[i] in ExecutedAt(messages);
  }

  /** A fault is a part that does not fit. */
  lemma AllFitMeans(messages: seq<Message>)
    ensures AllFit(messages) <==> forall why :: !FaultyMessages(messages, why)
  {
    hide Fits, FaultyResult;
    if AllFit(messages) {
      forall why ensures !FaultyMessages(messages, why) {
        forall p | InRange(messages, p) && messages[p.message].role == Tool && BlockAt(messages, p).result.Some?
          ensures !FaultyResult(BlockAt(messages, p).result.value, why) { FitsMeans(BlockAt(messages, p).result.value); }
      }
    }
    if forall why :: !FaultyMessages(messages, why) {
      forall p | InRange(messages, p) && messages[p.message].role == Tool && BlockAt(messages, p).result.Some?
        ensures Fits(BlockAt(messages, p).result.value)
      {
        forall why ensures !FaultyResult(BlockAt(messages, p).result.value, why) { assert !FaultyMessages(messages, why); }
        FitsMeans(BlockAt(messages, p).result.value);
      }
    }
  }

  /** Rewriting calls leaves results, and so their faults, as they were. */
  lemma SameFaults(
    before: seq<Message>, after: seq<Message>, moved: map<Position, nat>, texts: seq<string>, marshal: nat -> string, why: Refusal)
    requires CallsRewritten(before, after, moved, texts, marshal) && FaultyMessages(after, why)
    ensures FaultyMessages(before, why)
  {
    hide FaultyResult;
    var p :| InRange(after, p) && after[p.message].role == Tool
             && BlockAt(after, p).result.Some? && FaultyResult(BlockAt(after, p).result.value, why);
    assert InRange(before, p) && BlockAt(before, p).result == BlockAt(after, p).result;
  }

  // ----------------------------------------------------------- the Go object

  class Projection {
    var messages: seq<Message>
    /** What the reference backend holds; a reference is an index. */
    var texts: seq<string>
    const marshal: nat -> string
    const validJson: string -> bool
    const accepts: nat -> bool

    constructor (request: seq<Message>, encode: nat -> string, valid: string -> bool, storing: nat -> bool)
      ensures messages == request && texts == []
      ensures marshal == encode && validJson == valid && accepts == storing
    {
      messages, texts, marshal, validJson, accepts := request, [], encode, valid, storing;
    }

    method StoreText(text: string) returns (r: Option<nat>)
      modifies this`texts
      ensures r.None? ==> texts == old(texts) && !accepts(|texts|)
      ensures r.Some? ==> texts == old(texts) + [text] && r.value == |old(texts)|
    {
      if !accepts(|texts|) { return None; }
      texts := texts + [text];
      return Some(|texts| - 1);
    }

    /** Lines 63-78: the calls that count as executed. */
    method MatchCalls() returns (executed: seq<Position>)
      ensures executed == ExecutedAt(messages)
    {
      hide PendingAt, ExecutedIn, Steps, BlockSteps;
      var pending: map<string, seq<Position>> := map[];
      executed := [];
      ghost var steps: seq<Step> := [];
      forall id ensures PendingAt(steps, id) == [] { NothingRead(id); }
      NothingRead("");
      StepsBegin(messages);
      for m := 0 to |messages|
        invariant steps == Steps(messages, m) && executed == ExecutedIn(steps)
        invariant forall id :: PendingAt(steps, id) == if id in pending then pending[id] else []
      {
        var message := messages[m];
        StepsMessage(messages, m);
        for b := 0 to |message.content|
          invariant steps == Steps(messages, m) + BlockSteps(messages, m, b) && executed == ExecutedIn(steps)
          invariant forall id :: PendingAt(steps, id) == if id in pending then pending[id] else []
        {
          var block := message.content[b];
          ghost var x := Step(Position(m, b), MarkOf(message.role, block));
          PendingNextAll(steps, x);
          ExecutedNext(steps, x);
          StepsBlock(messages, m, b);
          if message.role == Assistant && block.call.Some? {
            var id := block.call.value.id;
            pending := pending[id := (if id in pending then pending[id] else []) + [Position(m, b)]];
          }
          if message.role == Tool && block.result.Some? {
            var id := block.result.value.callId;
            var matches := if id in pending then pending[id] else [];
            if |matches| == 1 {
              executed := executed + [matches[0]];
            }
            pending := pending - {id};
          }
          steps := steps + [x];
        }
      }
    }

    /** Lines 79-99: arguments of executed calls over the inline limit. */
    method RewriteCalls(executed: seq<Position>) returns (r: Outcome, ghost moved: map<Position, nat>)
      requires forall i :: 0 <= i < |executed| ==> InRange(messages, executed[i]) && BlockAt(messages, executed[i]).call.Some?
      requires forall i, j :: 0 <= i < j < |executed| ==> executed[i] != executed[j]
      modifies this
      ensures CallsRewritten(old(messages), messages, moved, texts, marshal) && old(texts) <= texts
      ensures forall p :: p in moved ==> p in executed
      ensures r.Done? ==> forall i :: 0 <= i < |executed| && Large(BlockAt(old(messages), executed[i])) ==>
                executed[i] in moved && validJson(BlockAt(old(messages), executed[i]).call.value.arguments)
      ensures r.Failed? ==> r.why == StoreFailed || r.why == BadArguments
      ensures r == Failed(StoreFailed) ==> !accepts(|texts|)
      ensures r == Failed(BadArguments) ==>
                exists i :: 0 <= i < |executed| && Large(BlockAt(old(messages), executed[i]))
                            && !validJson(BlockAt(old(messages), executed[i]).call.value.arguments)
    {
      hide CallsRewritten, SetBlock;
      ghost var before := messages;
      moved := map[];
      NothingMoved(before, texts, marshal);
      for i := 0 to |executed|
        invariant CallsRewritten(before, messages, moved, texts, marshal) && old(texts) <= texts
        invariant forall p :: p in moved ==> p in executed[..i]
        invariant forall j :: 0 <= j < i && Large(BlockAt(before, executed[j])) ==>
          executed[j] in moved && validJson(BlockAt(before, executed[j]).call.value.arguments)
      {
        var p := executed[i];
        assert p !in moved;
        Untouched(before, messages, moved, texts, marshal, p);
        var call := messages[p.message].content[p.block].call.value;
        if |call.arguments| <= INLINE_LIMIT { continue; }
        if !validJson(call.arguments) { return Failed(BadArguments), moved; }
        RewriteOne(before, messages, moved, texts, marshal, p);
        var reference := StoreText(call.arguments);
        if reference.None? { return Failed(StoreFailed), moved; }
        var data := marshal(reference.value);
        var block := messages[p.message].content[p.block];
        messages := SetBlock(messages, p, block.(call := Some(call.(arguments := data))));
        moved := moved[p := reference.value];
      }
      return Done, moved;
    }

    /** Lines 119-138 and projectMedia: one part of a tool result. */
    method ProjectPart(part: Part, heavy: bool) returns (out: Part, r: Outcome)
      modifies this`texts
      ensures old(texts) <= texts
      ensures r.Done? ==> PartProjected(part, out, heavy, texts)
      ensures r.Failed? ==> texts == old(texts) && (r.why == StoreFailed || Faulty(part, heavy, r.why))
      ensures r == Failed(StoreFailed) ==> !accepts(|texts|)
    {
      out := part;
      match part {
        case Media(valid, frames, payload, json) =>
          if !valid { return out, Failed(BadMedia); }
          if frames > FRAME_LIMIT || payload > STORE_LIMIT * 3 / 4 || |json| > STORE_LIMIT { return out, Failed(TooLarge); }
          var reference := StoreText(json);
          if reference.None? { return out, Failed(StoreFailed); }
          return Reference(reference.value, true), Done;
        case Text(text) =>
          if !heavy || text == "" { return out, Done; }
          if |text| > STORE_LIMIT { return out, Failed(TooLarge); }
          var reference := StoreText(text);
          if reference.None? { return out, Failed(StoreFailed); }
          return Reference(reference.value, false), Done;
        case _ => return out, Done;
      }
    }

    /** Lines 113-139: the parts of one tool result. */
    method ProjectResult(t: ToolResult) returns (out: ToolResult, r: Outcome)
      modifies this`texts
      ensures old(texts) <= texts
      ensures r.Done? ==> ResultProjected(t, out, |t.parts|, texts)
      ensures r.Failed? ==> exists n: nat :: ResultProjected(t, out, n, texts)
      ensures r.Failed? ==> r.why == StoreFailed || FaultyResult(t, r.why)
      ensures r == Failed(StoreFailed) ==> !accepts(|texts|)
    {
      hide ResultProjected;
      var textBytes := 0;
      for i := 0 to |t.parts|
        invariant textBytes == Size(t.parts[..i])
      {
        assert t.parts[..i + 1][..i] == t.parts[..i];
        if t.parts[i].Text? { textBytes := textBytes + |t.parts[i].text|; }
      }
      assert t.parts[..|t.parts|] == t.parts;
      out := t;
      AsItWas(t, texts);
      for i := 0 to |t.parts|
        invariant ResultProjected(t, out, i, texts) && old(texts) <= texts
      {
        var part := t.parts[i];
        ghost var stored := texts;
        var replacement, failure := ProjectPart(part, textBytes > INLINE_LIMIT);
        if failure.Failed? { return out, failure; }
        ResultMore(t, out, i, stored, texts);
        PartDone(t, out, i, replacement, texts);
        out := out.(parts := out.parts[i := replacement]);
      }
      return out, Done;
    }

    /** Lines 100-141: tool results; `live(m)`: the context lives on reaching message `m`. */
    method ProjectResults(live: nat -> bool) returns (r: Outcome)
      modifies this
      ensures old(texts) <= texts
      ensures r.Done? ==> ProjectedBefore(old(messages), messages, Position(|messages|, 0), texts)
      ensures r.Failed? ==> PartlyProjected(old(messages), messages, texts)
      ensures r.Failed? ==> r.why == StoreFailed || r.why == Cancelled || FaultyMessages(old(messages), r.why)
      ensures r == Failed(StoreFailed) ==> !accepts(|texts|)
      ensures r == Failed(Cancelled) ==> exists m: nat :: m < |old(messages)| && !live(m)
    {
      hide ProjectedBefore, PartlyProjected, SetBlock, BlockProjected, ResultProjected, FaultyResult, FaultyMessages, SameShape;
      ghost var before := messages;
      NothingProjected(before, texts);
      for m := 0 to |messages|
        invariant ProjectedBefore(before, messages, Position(m, 0), texts) && old(texts) <= texts && |messages| == |before|
      {
        if !live(m) {
          Partly(before, messages, Position(m, 0), texts);
          return Failed(Cancelled);
        }
        KeptShape(before, messages, Position(m, 0), texts, m);
        if messages[m].role != Tool {
          SkipMessage(before, messages, m, texts);
          continue;
        }
        for b := 0 to |messages[m].content|
          invariant ProjectedBefore(before, messages, Position(m, b), texts) && old(texts) <= texts && |messages| == |before|
          invariant messages[m].role == before[m].role == Tool && |messages[m].content| == |before[m].content|
        {
          var at := Position(m, b);
          var block := messages[m].content[b];
          StillOriginal(before, messages, at, texts);
          if block.result.None? {
            SkipBlock(before, messages, at, texts);
            continue;
          }
          ghost var stored := texts;
          var out, failure := ProjectResult(block.result.value);
          SetBlockIs(messages, at, block.(result := Some(out)));
          if failure.Failed? {
            if failure.why != StoreFailed {
              FaultyIn(before, at, failure.why);
              FaultKinds(block.result.value, failure.why);
            }
            FailedAt(before, messages, at, stored, out, texts);
            messages := SetBlock(messages, at, block.(result := Some(out)));
            return failure;
          }
          BlockDone(block, out, texts);
          ProjectedNext(before, messages, at, stored, block.(result := Some(out)), texts);
          messages := SetBlock(messages, at, block.(result := Some(out)));
          KeptShape(before, messages, Position(m, b + 1), texts, m);
        }
        EndOfMessage(before, messages, m, texts);
      }
      return Done;
    }

    /** BeforeModel: match, rewrite, project. `sameSession`: the runtime belongs to this session. */
    method BeforeModel(sameSession: bool, live: nat -> bool) returns (r: Outcome, ghost middle: seq<Message>, ghost moved: map<Position, nat>)
      modifies this
      ensures !sameSession <==> r == Failed(WrongSession)
      ensures !sameSession ==> messages == old(messages) && texts == old(texts)
      ensures sameSession ==>
                && old(texts) <= texts
                && CallsRewritten(old(messages), middle, moved, texts, marshal)
                && (forall p :: p in moved ==> p in ExecutedAt(old(messages)))
                && PartlyProjected(middle, messages, texts)
      ensures r.Done? ==>
                && (forall p :: InRange(old(messages), p) && BlockAt(old(messages), p).call.Some?
                                && |BlockAt(old(messages), p).call.value.arguments| > 4096 ==>
                      (p in moved <==> p in ExecutedAt(old(messages))))
                && ProjectedBefore(middle, messages, Position(|messages|, 0), texts)
      ensures r == Failed(StoreFailed) ==> !accepts(|texts|)
      ensures r == Failed(Cancelled) ==> exists m: nat :: m < |old(messages)| && !live(m)
      ensures r == Failed(BadArguments) ==> !ArgumentsValid(old(messages), validJson)
      ensures r.Failed? ==> r.why in {WrongSession, StoreFailed, Cancelled, BadArguments} || FaultyMessages(old(messages), r.why)
      ensures (&& sameSession && (forall n: nat :: accepts(n)) && (forall m: nat :: live(m))
               && ArgumentsValid(old(messages), validJson) && AllFit(old(messages))) ==> r == Done
    {
      hide CallsRewritten, PartlyProjected, ProjectedBefore, ExecutedAt, FaultyMessages, AllFit, ArgumentsValid;
      AllFitMeans(messages);
      middle, moved := messages, map[];
      if !sameSession { return Failed(WrongSession), middle, moved; }
      var executed := MatchCalls();
      ExecutedCalls(messages);
      r, moved := RewriteCalls(executed);
      if r == Failed(BadArguments) {
        ghost var i :| 0 <= i < |executed| && Large(BlockAt(old(messages), executed[i]))
                 && !validJson(BlockAt(old(messages), executed[i]).call.value.arguments);
        BadArgumentsAt(old(messages), validJson, i);
      }
      middle := messages;
      ghost var stored := texts;
      if r.Failed? {
        UntouchedPartly(middle, texts);
        return r, middle, moved;
      }
      r := ProjectResults(live);
      RewrittenLength(old(messages), middle, moved, stored, marshal);
      if r.Failed? && FaultyMessages(middle, r.why) {
        FaultKindsOf(middle, r.why);
        SameFaults(old(messages), middle, moved, stored, marshal, r.why);
      }
      RewrittenMore(old(messages), middle, moved, stored, texts, marshal);
      if r.Done? { Partly(middle, messages, Position(|messages|, 0), texts); }
    }
  }

  // ------------------------------------------------------------------ lemmas

  /** Every executed position is a call in an assistant message, listed once. */
  lemma ExecutedCalls(messages: seq<Message>)
    ensures var e := ExecutedAt(messages);
      && (forall i :: 0 <= i < |e| ==> InRange(messages, e[i]) && BlockAt(messages, e[i]).call.Some?)
      && (forall i, j :: 0 <= i < j < |e| ==> e[i] != e[j])
  {
    var steps := Steps(messages, |messages|);
    var marks := Marks(steps);
    StepsInOrder(messages, |messages|);
    ExecutedExactly(marks);
    ExecutedInRange(steps);
    var x := Executed(marks);
    forall i | 0 <= i < |x| ensures StepOk(messages, |messages|, steps[x[i]]) && marks[x[i]].IsCall? {
      assert x[i] in x;
    }
    forall i, j | 0 <= i < j < |x| ensures steps[x[i]].at != steps[x[j]].at {
      assert x[i] != x[j];
      assert x[i] < x[j] ==> Before(steps[x[i]].at, steps[x[j]].at);
      assert x[j] < x[i] ==> Before(steps[x[j]].at, steps[x[i]].at);
    }
  }

  /** The block at `p` is a call that a later result answers, the only call with
      its identity since the previous such result. */
  ghost predicate AnsweredAt(steps: seq<Step>, p: Position) {
    exists k: nat :: k < |steps| && steps[k].at == p && Answered(Marks(steps), k)
  }

  lemma ExecutedIsAnswered(steps: seq<Step>, p: Position)
    requires p in ExecutedIn(steps)
    ensures AnsweredAt(steps, p)
  {
    hide Answered, Executed;
    ExecutedExactly(Marks(steps));
    ExecutedInRange(steps);
    var x := Executed(Marks(steps));
    var i :| 0 <= i < |x| && ExecutedIn(steps)[i] == p;
    assert x[i] in x && steps[x[i]].at == p;
  }

  lemma AnsweredIsExecuted(steps: seq<Step>, p: Position)
    requires AnsweredAt(steps, p)
    ensures p in ExecutedIn(steps)
  {
    hide Answered, Executed;
    ExecutedExactly(Marks(steps));
    ExecutedInRange(steps);
    var x := Executed(Marks(steps));
    var k: nat :| k < |steps| && steps[k].at == p && Answered(Marks(steps), k);
    var i :| 0 <= i < |x| && x[i] == k;
    assert ExecutedIn(steps)[i] == p;
  }

  /** Which calls may be rewritten: exactly the answered ones. */
  lemma ExecutedMeans(messages: seq<Message>, p: Position)
    ensures p in ExecutedAt(messages) <==> AnsweredAt(Steps(messages, |messages|), p)
  {
    hide ExecutedIn, AnsweredAt, Steps;
    var steps := Steps(messages, |messages|);
    if p in ExecutedIn(steps) { ExecutedIsAnswered(steps, p); }
    if AnsweredAt(steps, p) { AnsweredIsExecuted(steps, p); }
  }

  lemma RewrittenLength(
    before: seq<Message>, after: seq<Message>, moved: map<Position, nat>, texts: seq<string>, marshal: nat -> string)
    requires CallsRewritten(before, after, moved, texts, marshal)
    ensures |after| == |before|
  {
  }

  lemma NothingMoved(messages: seq<Message>, texts: seq<string>, marshal: nat -> string)
    ensures CallsRewritten(messages, messages, map[], texts, marshal)
  {
  }

  lemma Untouched(
    before: seq<Message>, after: seq<Message>, moved: map<Position, nat>, texts: seq<string>, marshal: nat -> string, p: Position)
    requires CallsRewritten(before, after, moved, texts, marshal) && InRange(before, p) && p !in moved
    ensures InRange(after, p) && BlockAt(after, p) == BlockAt(before, p)
  {
  }

  lemma RewrittenMore(
    before: seq<Message>, after: seq<Message>, moved: map<Position, nat>, texts: seq<string>, more: seq<string>, marshal: nat -> string)
    requires CallsRewritten(before, after, moved, texts, marshal) && texts <= more
    ensures CallsRewritten(before, after, moved, more, marshal)
  {
  }

  lemma AsItWas(t: ToolResult, texts: seq<string>)
    ensures ResultProjected(t, t, 0, texts)
  {
  }

  lemma ResultMore(t: ToolResult, out: ToolResult, n: nat, texts: seq<string>, more: seq<string>)
    requires ResultProjected(t, out, n, texts) && texts <= more
    ensures ResultProjected(t, out, n, more)
  {
    hide Size;
  }

  lemma PartDone(t: ToolResult, out: ToolResult, i: nat, part: Part, texts: seq<string>)
    requires ResultProjected(t, out, i, texts) && i < |t.parts|
    requires PartProjected(t.parts[i], part, Size(t.parts) > INLINE_LIMIT, texts)
    ensures |out.parts| == |t.parts| && ResultProjected(t, out.(parts := out.parts[i := part]), i + 1, texts)
  {
    hide PartProjected, Size;
  }

  lemma BlockDone(block: Block, out: ToolResult, texts: seq<string>)
    requires block.result.Some? && ResultProjected(block.result.value, out, |block.result.value.parts|, texts)
    ensures BlockProjected(Tool, block, block.(result := Some(out)), texts)
  {
  }

  lemma NothingProjected(messages: seq<Message>, texts: seq<string>)
    ensures ProjectedBefore(messages, messages, Position(0, 0), texts)
  {
  }

  lemma KeptShape(before: seq<Message>, after: seq<Message>, cursor: Position, texts: seq<string>, m: nat)
    requires ProjectedBefore(before, after, cursor, texts) && m < |before|
    ensures |after| == |before| && after[m].role == before[m].role && |after[m].content| == |before[m].content|
  {
  }

  lemma StillOriginal(before: seq<Message>, after: seq<Message>, cursor: Position, texts: seq<string>)
    requires ProjectedBefore(before, after, cursor, texts) && InRange(before, cursor)
    ensures InRange(after, cursor) && BlockAt(after, cursor) == BlockAt(before, cursor)
  {
  }

  lemma SkipMessage(before: seq<Message>, after: seq<Message>, m: nat, texts: seq<string>)
    requires ProjectedBefore(before, after, Position(m, 0), texts) && m < |before| && before[m].role != Tool
    ensures ProjectedBefore(before, after, Position(m + 1, 0), texts)
  {
    forall p | InRange(before, p) && Before(p, Position(m + 1, 0)) && !Before(p, Position(m, 0))
      ensures BlockProjected(before[p.message].role, BlockAt(before, p), BlockAt(after, p), texts) {}
  }

  lemma SkipBlock(before: seq<Message>, after: seq<Message>, at: Position, texts: seq<string>)
    requires ProjectedBefore(before, after, at, texts) && InRange(before, at) && BlockAt(before, at).result.None?
    ensures ProjectedBefore(before, after, Position(at.message, at.block + 1), texts)
  {
    forall p | InRange(before, p) && Before(p, Position(at.message, at.block + 1)) && !Before(p, at)
      ensures BlockProjected(before[p.message].role, BlockAt(before, p), BlockAt(after, p), texts) {}
  }

  lemma EndOfMessage(before: seq<Message>, after: seq<Message>, m: nat, texts: seq<string>)
    requires m < |before| && ProjectedBefore(before, after, Position(m, |before[m].content|), texts)
    ensures ProjectedBefore(before, after, Position(m + 1, 0), texts)
  {
    hide BlockProjected;
  }

  lemma Partly(before: seq<Message>, after: seq<Message>, cursor: Position, texts: seq<string>)
    requires ProjectedBefore(before, after, cursor, texts)
    ensures PartlyProjected(before, after, texts)
  {
    hide ResultProjected;
    forall p | InRange(before, p) ensures BlockPartly(before[p.message].role, BlockAt(before, p), BlockAt(after, p), texts) {
      if BlockAt(before, p).result.Some? { AsItWas(BlockAt(before, p).result.value, texts); }
    }
  }

  lemma UntouchedPartly(messages: seq<Message>, texts: seq<string>)
    ensures PartlyProjected(messages, messages, texts)
  {
    NothingProjected(messages, texts);
    Partly(messages, messages, Position(0, 0), texts);
  }

  lemma FailedAt(
    before: seq<Message>, after: seq<Message>, at: Position, stored: seq<string>, out: ToolResult, texts: seq<string>)
    requires ProjectedBefore(before, after, at, stored) && stored <= texts && InRange(before, at) && InRange(after, at)
    requires BlockAt(after, at) == BlockAt(before, at) && BlockAt(before, at).result.Some?
    requires before[at.message].role == Tool
    requires exists n: nat :: ResultProjected(BlockAt(before, at).result.value, out, n, texts)
    ensures PartlyProjected(before, SetBlock(after, at, BlockAt(after, at).(result := Some(out))), texts)
  {
    hide ResultProjected;
    var last := SetBlock(after, at, BlockAt(after, at).(result := Some(out)));
    SetBlockIs(after, at, BlockAt(after, at).(result := Some(out)));
    forall p | InRange(before, p) ensures BlockPartly(before[p.message].role, BlockAt(before, p), BlockAt(last, p), texts) {
      if p != at {
        if Before(p, at) {
          ProjectedMore(BlockAt(before, p), BlockAt(after, p), before[p.message].role, stored, texts);
        } else if BlockAt(before, p).result.Some? {
          AsItWas(BlockAt(before, p).result.value, texts);
        }
      }
    }
  }

  lemma FaultyIn(before: seq<Message>, at: Position, why: Refusal)
    requires InRange(before, at) && before[at.message].role == Tool && BlockAt(before, at).result.Some?
    requires FaultyResult(BlockAt(before, at).result.value, why)
    ensures FaultyMessages(before, why)
  {
  }

  lemma StepsBegin(messages: seq<Message>)
    ensures Steps(messages, 0) == []
  {
  }

  lemma StepsMessage(messages: seq<Message>, m: nat)
    requires m < |messages|
    ensures Steps(messages, m) + BlockSteps(messages, m, 0) == Steps(messages, m)
    ensures Steps(messages, m + 1) == Steps(messages, m) + BlockSteps(messages, m, |messages[m].content|)
  {
  }

  lemma StepsBlock(messages: seq<Message>, m: nat, b: nat)
    requires m < |messages| && b < |messages[m].content|
    ensures Steps(messages, m) + BlockSteps(messages, m, b + 1)
      == (Steps(messages, m) + BlockSteps(messages, m, b))
           + [Step(Position(m, b), MarkOf(messages[m].role, messages[m].content[b]))]
  {
    hide Steps;
  }

  function PendingAfter(steps: seq<Step>, x: Step, id: string): seq<Position> {
    if x.mark == IsCall(id) then PendingAt(steps, id) + [x.at]
    else if x.mark == IsResult(id) then []
    else PendingAt(steps, id)
  }

  lemma PendingNextAll(steps: seq<Step>, x: Step)
    ensures forall id :: PendingAt(steps + [x], id) == PendingAfter(steps, x, id)
  {
    hide PendingAt;
    forall id ensures PendingAt(steps + [x], id) == PendingAfter(steps, x, id) {
      PendingNext(steps, x, id);
    }
  }

  lemma NothingRead(id: string)
    ensures PendingAt([], id) == [] && ExecutedIn([]) == []
  {
  }
}
