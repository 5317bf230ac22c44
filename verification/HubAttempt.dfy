/** One attempt of apps/hub/runtime.go: the `commit` and `observe` closures over
    their captured variables, and the verdict after the engine returned. The
    store's answer to its n-th Record call and Go's map iteration order are
    parameters; nothing is assumed about either. */
module HubAttempt {
  import opened EngineContract
  import opened Wrappers

  const CLEANUP_TEXT := "Engine ended before a paired tool result; inspect its native journal."

  /** A Go error as `cancellationOnly` and `boundedError` look at it. */
  datatype Err =
    | ContextCanceled
    | DeadlineExceeded
    | Joined(children: seq<Err>, text: string)
    | Wrapped(inner: Option<Err>, text: string)
    | Plain(text: string)

  const UNSUPPORTED := Plain("engine capability unsupported")

  datatype World = World(
    target: Option<Capabilities>,  // the registered engine
    waits: bool,                   // a WaitStore is configured
    record: nat -> bool,           // does the n-th Record call succeed?
    pick: (nat, set<string>) -> string) // the next open tool a range over the map visits

  ghost predicate IterationOrder(w: World) {
    forall n: nat, s: set<string> :: s != {} ==> w.pick(n, s) in s
  }

  /** What was written durably, with the side-effect flag passed along. */
  datatype Entry = Entry(event: Event, possible: bool)

  /** The captured variables of `commit`. `calls` counts Record calls. */
  datatype Progress = Progress(
    contract: Contract, open: map<string, string>, sideEffects: bool,
    outcome: Outcome, failure: Failure, fatalText: string,
    log: seq<Entry>, calls: nat, persistenceErr: bool)

  const NEW_PROGRESS := Progress(NEW_CONTRACT, map[], false, Failed, Execution, "", [], 0, false)

  // ---------------------------------------------------------------- commit

  predicate Ends(e: Event) {
    e.kind == Completed || (e.kind == Error && !e.recoverable)
  }

  predicate ActivityRisk(e: Event) {
    e.kind == ExecutionActivity && e.activity.Some? &&
    e.activity.value.effect != Read && e.activity.value.effect != NoEffect
  }

  predicate Uncontrolled(w: World) {
    w.target.Some? && !w.target.value.toolControl
  }

  /** The events after which nothing may be retried elsewhere. */
  predicate Risky(w: World, e: Event) {
    || ActivityRisk(e)
    || (e.kind == SessionStarted && Uncontrolled(w))
    || (e.kind == ToolStart && e.effect != Read)
  }

  predicate WaitUnavailable(w: World, e: Event) {
    e.kind == Completed && e.outcome == Waiting &&
    (!w.waits || w.target.None? || !w.target.value.durableWaits)
  }

  function Cleanup(id: string, name: string): Event {
    BLANK.(kind := ToolEnd, id := id, name := name, text := CLEANUP_TEXT)
  }

  /** Validate, record, publish: the order every event goes through. */
  function Store(w: World, p: Progress, e: Event, possible: bool): (Progress, bool) {
    var next := Accept(p.contract, e);
    if next.None? then (p, false)
    else if !w.record(p.calls) then (p.(calls := p.calls + 1, persistenceErr := true), false)
    else (p.(calls := p.calls + 1, contract := next.value, log := p.log + [Entry(e, possible)]), true)
  }

  /** One iteration of the clean-up loop. */
  function CloseOne(w: World, p: Progress, id: string): (Progress, bool)
    requires id in p.open
  {
    var (q, ok) := Store(w, p, Cleanup(id, p.open[id]), true);
    (if ok then q.(open := p.open - {id}) else q, ok)
  }

  /** Pairs every open tool before a terminal event. */
  ghost function CloseAll(w: World, p: Progress): (Progress, bool)
    requires IterationOrder(w)
    decreases |p.open|
  {
    if p.open == map[] then (p, true)
    else
      assert p.open.Keys != {} by { var k :| k in p.open; }
      var id := w.pick(p.calls, p.open.Keys);
      var (q, ok) := CloseOne(w, p, id);
      if !ok then (q, false)
      else
        assert q.open.Keys == p.open.Keys - {id};
        assert |q.open.Keys| < |p.open.Keys|;
        CloseAll(w, q)
  }

  lemma NothingToClose(w: World, p: Progress)
    requires IterationOrder(w) && p.open == map[]
    ensures CloseAll(w, p) == (p, true)
  {
  }

  lemma CloseAllStep(w: World, p: Progress)
    requires IterationOrder(w) && p.open != map[]
    ensures var id := w.pick(p.calls, p.open.Keys);
      && id in p.open
      && var (q, ok) := Store(w, p, Cleanup(id, p.open[id]), true);
      && q.open == p.open
      && CloseAll(w, p) == (if ok then CloseAll(w, q.(open := p.open - {id})) else (q, false))
      && |p.open - {id}| < |p.open|
  {
    hide Accept;
    assert p.open.Keys != {} by { var k :| k in p.open; }
    var id := w.pick(p.calls, p.open.Keys);
    assert (p.open - {id}).Keys == p.open.Keys - {id};
    assert |(p.open - {id}).Keys| < |p.open.Keys|;
  }

  /** What `commit` publishes once the event is recorded. */
  function Publish(w: World, p: Progress, e: Event): Progress {
    p.(open := if e.kind == ToolStart then p.open[e.id := e.name]
               else if e.kind == ToolEnd then p.open - {e.id} else p.open,
       sideEffects := p.sideEffects || Risky(w, e),
       failure := if e.kind == Error && !e.recoverable then e.failure else p.failure,
       fatalText := if e.kind == Error && !e.recoverable then e.text else p.fatalText,
       outcome := if e.kind == Completed then e.outcome else p.outcome)
  }

  ghost function Commit(w: World, p: Progress, e: Event): (Progress, bool)
    requires IterationOrder(w)
  {
    if WaitUnavailable(w, e) then (p, false)
    else
      var (q, closed) := if Ends(e) then CloseAll(w, p) else (p, true);
      if !closed then (q, false)
      else
        var (r, ok) := Store(w, q, e, q.sideEffects || Risky(w, e));
        (if ok then Publish(w, r, e) else r, ok)
  }

  /** `commit`'s captured variables together with `observe`'s. */
  datatype Stream = Stream(progress: Progress, accepting: bool, rejected: bool)

  const NEW_STREAM := Stream(NEW_PROGRESS, true, false)

  /** `observe`: the first error sticks, and nothing enters after Execute returned. */
  ghost function Observe(w: World, s: Stream, e: Event): (Stream, bool)
    requires IterationOrder(w)
  {
    if !s.accepting then (s, false)
    else if s.rejected then (s, false)
    else
      var (p, ok) := Commit(w, s.progress, e);
      (Stream(p, true, !ok), ok)
  }

  ghost function ObserveAll(w: World, s: Stream, events: seq<Event>): Stream
    requires IterationOrder(w)
    decreases |events|
  {
    if events == [] then s else ObserveAll(w, Observe(w, s, events[0]).0, events[1..])
  }

  // ----------------------------------------------------- after Execute

  predicate CancellationOnly(e: Err) {
    match e
    case ContextCanceled => true
    case DeadlineExceeded => true
    case Joined(children, _) => children != [] && forall i :: 0 <= i < |children| ==> CancellationOnly(children[i])
    case Wrapped(inner, _) => inner.Some? && CancellationOnly(inner.value)
    case Plain(_) => false
  }

  function Text(e: Err): string {
    match e
    case ContextCanceled => "context canceled"
    case DeadlineExceeded => "context deadline exceeded"
    case Joined(_, text) => text
    case Wrapped(_, text) => text
    case Plain(text) => text
  }

  function BoundedError(e: Err): string {
    if |Text(e)| > 4096 then "engine error exceeds display budget" else Text(e)
  }

  /** What `attempt` returns, with the stream it leaves behind. */
  datatype Verdict = Verdict(outcome: Outcome, sideEffects: bool, failure: Failure, err: Option<Err>, stream: Stream)

  function FatalEvent(e: Err, failure: Failure): Event {
    BLANK.(kind := Error, text := BoundedError(e), failure := failure)
  }

  function CompletedEvent(outcome: Outcome): Event {
    BLANK.(kind := Completed, outcome := outcome)
  }

  /** The error of a stream that ended without Completed, and the verdict on it. */
  function MissingEnd(p: Progress, result: Option<Err>, cancelled: bool): (Err, Outcome, Failure) {
    var err := if result.Some? then result.value else Plain("engine ended without Completed");
    if cancelled && CancellationOnly(err) then (err, Cancelled, Cancellation)
    else (err, Failed, if result.Some? then p.failure else Protocol)
  }

  /** The product supplies the terminal events the engine did not send. */
  ghost function Supply(w: World, p: Progress, err: Err, outcome: Outcome, failure: Failure): (Progress, bool)
    requires IterationOrder(w)
  {
    var start := p.(outcome := outcome, failure := failure);
    var (q, ok) := if p.contract.fatal then (start, true) else Commit(w, start, FatalEvent(err, failure));
    if !ok then (q, false) else Commit(w, q, CompletedEvent(outcome))
  }

  /** Lines 449-493. */
  ghost function Conclude(w: World, s: Stream, result: Option<Err>, cancelled: bool): Verdict
    requires IterationOrder(w)
  {
    var p, closed := s.progress, s.(accepting := false);
    if s.rejected then Verdict(Failed, true, Protocol, Some(Joined([], "observed")), closed)
    else if p.persistenceErr then Verdict(Failed, true, Execution, Some(Joined([], "persistence")), closed)
    else if p.contract.terminal && result.Some? then Verdict(Failed, true, Execution, result, closed)
    else if !p.contract.terminal then
      var (err, outcome, failure) := MissingEnd(p, result, cancelled);
      var (q, ok) := Supply(w, p, err, outcome, failure);
      Verdict(outcome, !ok || q.sideEffects, failure, Some(err), closed.(progress := q))
    else
      Verdict(p.outcome, p.sideEffects, p.failure,
              if p.outcome == Succeeded || p.outcome == Waiting then None
              else Some(Plain(if p.fatalText == "" then "engine attempt failed" else p.fatalText)), closed)
  }

  // ---------------------------------------------------- the closures' object

  class AttemptStream {
    const world: World
    var contract: Contract
    var open: map<string, string>
    var sideEffects: bool
    var outcome: Outcome
    var failure: Failure
    var fatalText: string
    var log: seq<Entry>
    var calls: nat
    var persistenceErr: bool
    var accepting: bool
    var rejected: bool

    function Now(): Progress
      reads this
    {
      Progress(contract, open, sideEffects, outcome, failure, fatalText, log, calls, persistenceErr)
    }

    function State(): Stream
      reads this
    {
      Stream(Now(), accepting, rejected)
    }

    constructor (world: World)
      ensures this.world == world && State() == NEW_STREAM
    {
      this.world := world;
      contract, open, sideEffects := NEW_CONTRACT, map[], false;
      outcome, failure, fatalText := Failed, Execution, "";
      log, calls, persistenceErr := [], 0, false;
      accepting, rejected := true, false;
    }

    method Write(e: Event, possible: bool) returns (ok: bool)
      modifies this
      ensures (Now(), ok) == Store(world, old(Now()), e, possible)
      ensures accepting == old(accepting) && rejected == old(rejected)
    {
      var next := Accept(contract, e);
      if next.None? { return false; }
      ok := world.record(calls);
      calls := calls + 1;
      if !ok {
        persistenceErr := true;
        return;
      }
      log := log + [Entry(e, possible)];
      contract := next.value;
    }

    method CloseTools() returns (ok: bool)
      requires IterationOrder(world)
      modifies this
      ensures (Now(), ok) == CloseAll(world, old(Now()))
      ensures accepting == old(accepting) && rejected == old(rejected)
    {
      hide Accept, CloseAll, Store;
      while open != map[]
        invariant CloseAll(world, Now()) == CloseAll(world, old(Now()))
        invariant accepting == old(accepting) && rejected == old(rejected)
        decreases |open|
      {
        CloseAllStep(world, Now());
        var id := world.pick(calls, open.Keys);
        ok := Write(Cleanup(id, open[id]), true);
        if !ok { return; }
        open := open - {id};
      }
      NothingToClose(world, Now());
      return true;
    }

    method CommitEvent(e: Event) returns (ok: bool)
      requires IterationOrder(world)
      modifies this
      ensures (Now(), ok) == Commit(world, old(Now()), e)
      ensures accepting == old(accepting) && rejected == old(rejected)
    {
      hide Accept, Store, CloseAll;
      if WaitUnavailable(world, e) { return false; }
      if Ends(e) {
        ok := CloseTools();
        if !ok { return; }
      }
      var activityRisk := ActivityRisk(e);
      var possible := sideEffects || activityRisk
        || (e.kind == SessionStarted && Uncontrolled(world)) || (e.kind == ToolStart && e.effect != Read);
      ok := Write(e, possible);
      if !ok { return; }
      if e.kind == ToolStart { open := open[e.id := e.name]; }
      if e.kind == ToolEnd { open := open - {e.id}; }
      if e.kind == SessionStarted && Uncontrolled(world) { sideEffects := true; }
      if e.kind == ToolStart && e.effect != Read { sideEffects := true; }
      if activityRisk { sideEffects := true; }
      if e.kind == Error && !e.recoverable {
        failure := e.failure;
        fatalText := e.text;
      }
      if e.kind == Completed { outcome := e.outcome; }
    }

    method ObserveEvent(e: Event) returns (ok: bool)
      requires IterationOrder(world)
      modifies this
      ensures (State(), ok) == Observe(world, old(State()), e)
    {
      if !accepting { return false; }
      if !rejected {
        ok := CommitEvent(e);
        rejected := !ok;
      }
      return !rejected;
    }

    /** `MissingEnd`, then the two commits it leads to. */
    method SupplyEnd(err: Err, o: Outcome, f: Failure) returns (ok: bool)
      requires IterationOrder(world)
      modifies this
      ensures (Now(), ok) == Supply(world, old(Now()), err, o, f)
      ensures accepting == old(accepting) && rejected == old(rejected)
    {
      hide Commit;
      outcome, failure := o, f;
      if !contract.fatal {
        ok := CommitEvent(FatalEvent(err, f));
        if !ok { return; }
      }
      ok := CommitEvent(CompletedEvent(o));
    }

    method Finish(result: Option<Err>, cancelled: bool) returns (verdict: Verdict)
      requires IterationOrder(world)
      modifies this
      ensures verdict == Conclude(world, old(State()), result, cancelled) && State() == verdict.stream
    {
      hide Commit, Supply;
      accepting := false;
      if rejected { return Verdict(Failed, true, Protocol, Some(Joined([], "observed")), State()); }
      if persistenceErr { return Verdict(Failed, true, Execution, Some(Joined([], "persistence")), State()); }
      if contract.terminal && result.Some? { return Verdict(Failed, true, Execution, result, State()); }
      if !contract.terminal {
        var (err, o, f) := MissingEnd(Now(), result, cancelled);
        var ok := SupplyEnd(err, o, f);
        return Verdict(o, !ok || sideEffects, f, Some(err), State());
      }
      var err := None;
      if outcome != Succeeded && outcome != Waiting {
        err := Some(Plain(if fatalText == "" then "engine attempt failed" else fatalText));
      }
      return Verdict(outcome, sideEffects, failure, err, State());
    }
  }
}
