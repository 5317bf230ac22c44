/** What an attempt records, event by event: exactly the callbacks that are
    lawful after what was recorded before them, with the ends of tools left open,
    each with a flag that says whether anything may have had an effect by then. */
module HubRecord {
  import opened EngineContract
  import opened EngineTrace
  import opened HubAttempt
  import opened HubTrace
  import opened Wrappers

  function Events(log: seq<Entry>): (r: seq<Event>)
    ensures |r| == |log| && forall i :: 0 <= i < |r| ==> r[i] == log[i].event
  {
    seq(|log|, i requires 0 <= i < |log| => log[i].event)
  }

  ghost predicate FailedWith(log: seq<Entry>, failure: Failure) {
    exists k :: 0 <= k < |log| && Fatal(log[k].event) && log[k].event.failure == failure
  }

  /** The contract is what the recorded stream makes of a new one, and no tool is
      open once the stream ends. */
  ghost predicate RecordInv(p: Progress) {
    && AcceptAll(NEW_CONTRACT, Events(p.log)) == Some(p.contract)
    && p.open.Keys == p.contract.tools
    && (p.contract.fatal || p.contract.terminal ==> p.open == map[])
  }

  /** The failure is the recorded one, or else what it was to begin with. */
  ghost predicate FailureInv(p: Progress, initial: Failure) {
    if p.contract.fatal then FailedWith(p.log, p.failure) else p.failure == initial
  }

  lemma AppendAccepts(log: seq<Entry>, c: Contract, e: Event, possible: bool)
    requires AcceptAll(NEW_CONTRACT, Events(log)) == Some(c)
    ensures AcceptAll(NEW_CONTRACT, Events(log + [Entry(e, possible)])) == Accept(c, e)
  {
    hide Accept;
    var all := Events(log + [Entry(e, possible)]);
    assert all[..|all| - 1] == Events(log);
  }

  lemma RecordTracks(p: Progress)
    requires AcceptAll(NEW_CONTRACT, Events(p.log)) == Some(p.contract)
    ensures LawfulStream(Events(p.log)) && Tracks(p.contract, Events(p.log))
  {
    hide Tracks, LawfulStream;
    AcceptsExactly(Events(p.log));
  }

  // ---------------------------------------------------------------- cleaning up

  /** `q` records the end of every tool that is open in `p` and not in `q`, once,
      each flagged as possibly effective, and differs in nothing else. */
  ghost predicate CleanedUp(p: Progress, q: Progress) {
    && p.log <= q.log
    && |q.log| - |p.log| == |p.open| - |q.open|
    && q.open.Keys <= p.open.Keys
    && (forall i :: |p.log| <= i < |q.log| ==>
          && q.log[i].possible && q.log[i].event.kind == ToolEnd
          && q.log[i].event.id in p.open && q.log[i].event.id !in q.open
          && q.log[i].event.name == p.open[q.log[i].event.id] && q.log[i].event.sessionID == ""
          && q.log[i].event.text == CLEANUP_TEXT)
    && (forall id :: id in p.open && id !in q.open ==> exists i :: |p.log| <= i < |q.log| && q.log[i].event.id == id)
    && (forall id :: id in q.open ==> q.open[id] == p.open[id])
    && q.sideEffects == p.sideEffects && q.outcome == p.outcome && q.failure == p.failure && q.fatalText == p.fatalText
    && q.contract.fatal == p.contract.fatal && q.contract.terminal == p.contract.terminal
  }

  lemma CleanupAccepted(c: Contract, id: string, name: string)
    ensures Accept(c, Cleanup(id, name)).Some? <==> !c.terminal && !c.fatal && id in c.tools
    ensures Accept(c, Cleanup(id, name)).Some? ==>
              Accept(c, Cleanup(id, name)).value == c.(tools := c.tools - {id})
  {
  }

  lemma CloseOneCleans(w: World, p: Progress, id: string)
    requires id in p.open && RecordInv(p)
    ensures var (q, ok) := CloseOne(w, p, id);
      && RecordInv(q) && CleanedUp(p, q)
      && (ok <==> w.record(p.calls))
      && (ok ==> q.open.Keys == p.open.Keys - {id} && |q.open| == |p.open| - 1)
      && (!ok ==> q.open == p.open && q.log == p.log)
  {
    hide Accept;
    var e := Cleanup(id, p.open[id]);
    CleanupAccepted(p.contract, id, p.open[id]);
    if w.record(p.calls) {
      AppendAccepts(p.log, p.contract, e, true);
      var q := CloseOne(w, p, id).0;
      assert q.open.Keys == p.open.Keys - {id};
      assert |q.open.Keys| == |p.open.Keys| - 1;
      assert q.log[|p.log|].event == e;
    }
  }

  lemma CleanedTwice(p: Progress, q: Progress, r: Progress)
    requires CleanedUp(p, q) && CleanedUp(q, r)
    ensures CleanedUp(p, r)
  {
    forall id | id in p.open && id !in r.open ensures exists i :: |p.log| <= i < |r.log| && r.log[i].event.id == id {
      if id !in q.open {
        var i :| |p.log| <= i < |q.log| && q.log[i].event.id == id;
        assert r.log[i] == q.log[i];
      } else {
        var i :| |q.log| <= i < |r.log| && r.log[i].event.id == id;
      }
    }
    forall i | |p.log| <= i < |q.log| ensures r.log[i] == q.log[i] {}
  }

  lemma {:induction false} CloseAllCleans(w: World, p: Progress)
    requires IterationOrder(w) && RecordInv(p)
    ensures var (q, ok) := CloseAll(w, p);
      && RecordInv(q) && CleanedUp(p, q)
      && (ok ==> q.open == map[])
      && ((forall n :: w.record(n)) ==> ok)
    decreases |p.open|
  {
    hide RecordInv, CloseOne, CleanedUp;
    if p.open == map[] {
      NothingCleaned(p);
    } else {
      assert p.open.Keys != {} by { var k :| k in p.open; }
      var id := w.pick(p.calls, p.open.Keys);
      CloseOneCleans(w, p, id);
      var (q, ok) := CloseOne(w, p, id);
      if ok {
        assert q.open.Keys == p.open.Keys - {id};
        CloseAllCleans(w, q);
        CleanedTwice(p, q, CloseAll(w, q).0);
      }
    }
  }

  lemma NothingCleaned(p: Progress)
    ensures CleanedUp(p, p)
  {
  }

  // -------------------------------------------------------------------- commit

  lemma PublishRecords(w: World, p: Progress, e: Event, possible: bool)
    requires RecordInv(p) && Store(w, p, e, possible).1
    requires Ends(e) ==> p.open == map[]
    ensures RecordInv(Publish(w, Store(w, p, e, possible).0, e))
  {
    hide Accept, Risky;
    AppendAccepts(p.log, p.contract, e, possible);
    AcceptedShape(p.contract, e);
    if e.kind != Completed { NotAfterFatal(p.contract, e); }
    var q := Publish(w, Store(w, p, e, possible).0, e);
    assert q.open.Keys == q.contract.tools;
  }

  lemma NotAfterFatal(c: Contract, e: Event)
    requires Accept(c, e).Some? && e.kind != Completed
    ensures !c.fatal && !c.terminal
  {
  }

  lemma StoreFailedRecords(w: World, p: Progress, e: Event, possible: bool)
    requires RecordInv(p) && !Store(w, p, e, possible).1
    ensures RecordInv(Store(w, p, e, possible).0) && Store(w, p, e, possible).0.log == p.log
  {
    hide Accept;
  }

  lemma CommitRecords(w: World, p: Progress, e: Event)
    requires IterationOrder(w) && RecordInv(p)
    ensures RecordInv(Commit(w, p, e).0)
  {
    hide RecordInv, Store, Publish, CloseAll, CleanedUp, Risky, WaitUnavailable;
    if !WaitUnavailable(w, e) {
      if Ends(e) { CloseAllCleans(w, p); }
      var (q, closed) := if Ends(e) then CloseAll(w, p) else (p, true);
      if closed {
        var possible := q.sideEffects || Risky(w, e);
        if Store(w, q, e, possible).1 {
          PublishRecords(w, q, e, possible);
        } else {
          StoreFailedRecords(w, q, e, possible);
        }
      }
    }
  }

  /** The ends of open tools do not matter to whether an end of the stream is in order. */
  lemma {:induction false} InOrderAfterCleaning(h: seq<Event>, more: seq<Event>, e: Event)
    requires e.kind == Error || e.kind == Completed
    requires forall i :: 0 <= i < |more| ==> more[i].kind == ToolEnd && more[i].sessionID == ""
    ensures InOrder(h + more, e) <==> InOrder(h, e)
  {
    var g := h + more;
    assert forall i :: 0 <= i < |h| ==> g[i] == h[i];
    assert forall i :: |h| <= i < |g| ==> g[i] == more[i - |h|];
    if i :| 0 <= i < |h| && h[i].kind == SessionStarted { assert g[i].kind == SessionStarted; }
    if i :| 0 <= i < |g| && g[i].kind == SessionStarted { assert h[i].kind == SessionStarted; }
  }

  lemma NothingOpen(p: Progress)
    requires RecordInv(p) && p.open == map[]
    ensures forall id :: !ToolOpen(Events(p.log), id)
  {
    hide ToolOpen, LawfulStream;
    RecordTracks(p);
    assert p.contract.tools == {};
  }

  lemma AcceptsByLaw(p: Progress, e: Event)
    requires RecordInv(p)
    ensures Accept(p.contract, e).Some? <==> Lawful(Events(p.log), e)
  {
    hide Tracks, Lawful, LawfulStream, Accept;
    RecordTracks(p);
    AcceptIsLaw(p.contract, Events(p.log), e);
  }

  lemma LawfulAfterCleaning(p: Progress, q: Progress, e: Event)
    requires RecordInv(q) && CleanedUp(p, q) && q.open == map[] && Ends(e)
    ensures Accept(q.contract, e).Some? <==> InOrder(Events(p.log), e)
  {
    hide InOrder, ToolOpen, RecordInv, Accept;
    AcceptsByLaw(q, e);
    NothingOpen(q);
    var more := Events(q.log)[|p.log|..];
    assert Events(q.log) == Events(p.log) + more;
    InOrderAfterCleaning(Events(p.log), more, e);
  }

  /** While every write succeeds, a callback is accepted exactly when it is in
      order after the recorded stream and, if it starts a wait, waits are
      configured and the engine can keep one. It is then recorded, after the ends
      of the tools it leaves open; otherwise it adds at most those. */
  lemma CommitExactly(w: World, p: Progress, e: Event)
    requires IterationOrder(w) && RecordInv(p) && forall n :: w.record(n)
    ensures var (q, ok) := Commit(w, p, e);
      && (ok <==>
            && InOrder(Events(p.log), e)
            && (e.kind == Completed && e.outcome == Waiting ==>
                  w.waits && w.target.Some? && w.target.value.durableWaits))
      && (!Ends(e) && !ok ==> q.log == p.log)
      && (ok ==> exists between: Progress ::
            && q.log == between.log + [Entry(e, between.sideEffects || Risky(w, e))]
            && (if Ends(e) then CleanedUp(p, between) && between.open == map[] else between == p))
  {
    hide RecordInv, CloseAll, CleanedUp, Risky, InOrder, Accept;
    if !WaitUnavailable(w, e) {
      if Ends(e) {
        CloseAllCleans(w, p);
        LawfulAfterCleaning(p, CloseAll(w, p).0, e);
      } else {
        RecordLaw(p, e);
      }
      var between := if Ends(e) then CloseAll(w, p).0 else p;
      var (q, ok) := Commit(w, p, e);
      if ok { assert q.log == between.log + [Entry(e, between.sideEffects || Risky(w, e))]; }
    }
  }

  lemma RecordLaw(p: Progress, e: Event)
    requires RecordInv(p) && e.kind != Completed
    ensures Accept(p.contract, e).Some? <==> InOrder(Events(p.log), e)
  {
    hide InOrder, RecordInv, Accept;
    AcceptsByLaw(p, e);
  }

  // --------------------------------------------------------- flags and verdicts

  /** In the event's own fields: a tool started with an effect other than reading,
      an activity that reported one, or a session begun on an engine whose tools
      the product does not control. */
  predicate MayHaveActed(w: World, e: Event) {
    || (e.kind == ToolStart && e.effect != Read)
    || (e.kind == ExecutionActivity && (e.activity.None? || e.activity.value.effect !in {Read, NoEffect}))
    || (e.kind == SessionStarted && w.target.Some? && !w.target.value.toolControl)
  }

  lemma RiskMeans(w: World, p: Progress)
    requires AcceptAll(NEW_CONTRACT, Events(p.log)) == Some(p.contract)
    ensures forall i :: 0 <= i < |p.log| ==> (Risky(w, p.log[i].event) <==> MayHaveActed(w, p.log[i].event))
  {
    hide Tracks, ToolOpen;
    RecordTracks(p);
    forall i | 0 <= i < |p.log| ensures Risky(w, p.log[i].event) <==> MayHaveActed(w, p.log[i].event) {
      assert Lawful(Events(p.log)[..i], Events(p.log)[i]);
    }
  }

  /** Every flag that is not the product's own, on the end of a tool, says exactly
      whether something risky was recorded by then. */
  ghost predicate FlagInv(w: World, log: seq<Entry>) {
    forall j :: 0 <= j < |log| && !(log[j].event.kind == ToolEnd && log[j].event.text == CLEANUP_TEXT) ==>
      (log[j].possible <==> RiskyBy(w, log, j))
  }

  ghost predicate RiskyBy(w: World, log: seq<Entry>, j: int) {
    exists i :: 0 <= i <= j && i < |log| && Risky(w, log[i].event)
  }

  lemma RiskyByAppend(w: World, log: seq<Entry>, more: seq<Entry>, j: int)
    requires j < |log|
    ensures RiskyBy(w, log + more, j) == RiskyBy(w, log, j)
  {
    hide Risky;
    var g := log + more;
    assert forall i :: 0 <= i < |log| ==> g[i] == log[i];
    if i :| 0 <= i <= j && i < |log| && Risky(w, log[i].event) { assert Risky(w, g[i].event); }
    if i :| 0 <= i <= j && i < |g| && Risky(w, g[i].event) { assert Risky(w, log[i].event); }
  }

  lemma FlagAppends(w: World, log: seq<Entry>, x: Entry)
    requires FlagInv(w, log)
    requires x.possible <==> RiskRecorded(w, log) || Risky(w, x.event)
    ensures FlagInv(w, log + [x])
  {
    hide Risky;
    var g := log + [x];
    forall j | 0 <= j < |log| ensures RiskyBy(w, g, j) == RiskyBy(w, log, j) { RiskyByAppend(w, log, [x], j); }
    assert g[|log|] == x;
    if i :| 0 <= i < |log| && Risky(w, log[i].event) { assert g[i] == log[i]; }
    if i :| 0 <= i <= |log| && i < |g| && Risky(w, g[i].event) { assert i < |log| ==> g[i] == log[i]; }
  }

  lemma FlagsCleaned(w: World, p: Progress, q: Progress)
    requires FlagInv(w, p.log) && CleanedUp(p, q)
    ensures FlagInv(w, q.log)
  {
    hide RiskyBy;
    assert q.log == p.log + q.log[|p.log|..];
    forall j | 0 <= j < |p.log| ensures RiskyBy(w, q.log, j) == RiskyBy(w, p.log, j) {
      RiskyByAppend(w, p.log, q.log[|p.log|..], j);
    }
  }

  lemma CommitFlags(w: World, p: Progress, e: Event)
    requires IterationOrder(w) && RecordInv(p) && TraceInv(w, p) && FlagInv(w, p.log)
    ensures FlagInv(w, Commit(w, p, e).0.log)
  {
    hide RecordInv, CloseAll, CleanedUp, Risky, TraceInv, FlagInv, WaitUnavailable, RiskRecorded, Accept;
    if !WaitUnavailable(w, e) {
      if Ends(e) {
        CloseAllCleans(w, p);
        CloseAllKeeps(w, p);
        FlagsCleaned(w, p, CloseAll(w, p).0);
      }
      var (q, closed) := if Ends(e) then CloseAll(w, p) else (p, true);
      if closed {
        TraceInvMeans(w, q);
        FlagAppends(w, q.log, Entry(e, q.sideEffects || Risky(w, e)));
      }
    }
  }

  // ------------------------------------------------------------- whole attempts

  lemma FailedLonger(log: seq<Entry>, more: seq<Entry>, failure: Failure)
    requires FailedWith(log, failure) && log <= more
    ensures FailedWith(more, failure)
  {
    var k :| 0 <= k < |log| && Fatal(log[k].event) && log[k].event.failure == failure;
    assert more[k] == log[k];
  }

  lemma PublishFailure(w: World, p: Progress, e: Event, possible: bool, initial: Failure)
    requires FailureInv(p, initial) && Store(w, p, e, possible).1
    ensures FailureInv(Publish(w, Store(w, p, e, possible).0, e), initial)
    ensures Fatal(e) ==> FailedWith(Publish(w, Store(w, p, e, possible).0, e).log, e.failure)
  {
    hide Accept, Risky, FailedWith;
    AcceptedShape(p.contract, e);
    if e.kind != Completed { NotAfterFatal(p.contract, e); }
    var log := p.log + [Entry(e, possible)];
    if Fatal(e) { FailedLast(log, e); }
    if p.contract.fatal { FailedLonger(p.log, log, p.failure); }
  }

  lemma CleanedFailure(p: Progress, q: Progress, initial: Failure)
    requires FailureInv(p, initial) && CleanedUp(p, q)
    ensures FailureInv(q, initial)
  {
    hide FailedWith;
    if p.contract.fatal { FailedLonger(p.log, q.log, p.failure); }
  }

  lemma CommitFailure(w: World, p: Progress, e: Event, initial: Failure)
    requires IterationOrder(w) && RecordInv(p) && FailureInv(p, initial)
    ensures FailureInv(Commit(w, p, e).0, initial)
    ensures Commit(w, p, e).1 && Fatal(e) ==> FailedWith(Commit(w, p, e).0.log, e.failure)
  {
    hide CloseAll, CleanedUp, Risky, WaitUnavailable, RecordInv, FailedWith, FailureInv, Store, Publish;
    if !WaitUnavailable(w, e) {
      if Ends(e) {
        CloseAllCleans(w, p);
        CleanedFailure(p, CloseAll(w, p).0, initial);
      }
      var (q, closed) := if Ends(e) then CloseAll(w, p) else (p, true);
      var possible := q.sideEffects || Risky(w, e);
      if closed {
        if Store(w, q, e, possible).1 {
          PublishFailure(w, q, e, possible, initial);
        } else {
          StoreFailedFailure(w, q, e, possible, initial);
        }
      }
    }
  }

  lemma StoreFailedFailure(w: World, p: Progress, e: Event, possible: bool, initial: Failure)
    requires FailureInv(p, initial) && !Store(w, p, e, possible).1
    ensures FailureInv(Store(w, p, e, possible).0, initial)
  {
    hide Accept;
  }

  lemma FailedLast(log: seq<Entry>, e: Event)
    requires log != [] && log[|log| - 1].event == e && Fatal(e)
    ensures FailedWith(log, e.failure)
  {
  }

  ghost predicate AttemptInv(w: World, p: Progress, initial: Failure) {
    RecordInv(p) && FailureInv(p, initial) && TraceInv(w, p) && FlagInv(w, p.log)
  }

  lemma CommitKeepsAttempt(w: World, p: Progress, e: Event, initial: Failure)
    requires IterationOrder(w) && AttemptInv(w, p, initial)
    ensures AttemptInv(w, Commit(w, p, e).0, initial)
  {
    hide Commit, RecordInv, FailureInv, TraceInv, FlagInv;
    CommitRecords(w, p, e);
    CommitFailure(w, p, e, initial);
    CommitKeeps(w, p, e);
    CommitFlags(w, p, e);
  }

  lemma {:induction false} ObserveAllRecords(w: World, s: Stream, events: seq<Event>, initial: Failure)
    requires IterationOrder(w) && AttemptInv(w, s.progress, initial)
    ensures AttemptInv(w, ObserveAll(w, s, events).progress, initial)
    decreases |events|
  {
    hide Commit, AttemptInv;
    if events != [] {
      CommitKeepsAttempt(w, s.progress, events[0], initial);
      ObserveAllRecords(w, Observe(w, s, events[0]).0, events[1..], initial);
    }
  }

  lemma NewAttemptInv(w: World, initial: Failure)
    ensures AttemptInv(w, NEW_PROGRESS.(failure := initial), initial)
  {
    assert Events([]) == [];
  }

  lemma {:induction false} StillAccepting(w: World, s: Stream, events: seq<Event>)
    requires IterationOrder(w)
    ensures ObserveAll(w, s, events).accepting == s.accepting
    decreases |events|
  {
    hide Commit;
    if events != [] { StillAccepting(w, Observe(w, s, events[0]).0, events[1..]); }
  }

  /** A callback at any point of any attempt, while every write succeeds: it is
      accepted exactly when it is in order, and then recorded. */
  lemma CallbackIsRecorded(w: World, events: seq<Event>, e: Event)
    requires IterationOrder(w) && (forall n :: w.record(n)) && !ObserveAll(w, NEW_STREAM, events).rejected
    ensures var s := ObserveAll(w, NEW_STREAM, events);
      var (after, ok) := Observe(w, s, e);
      && (ok <==>
            && InOrder(Events(s.progress.log), e)
            && (e.kind == Completed && e.outcome == Waiting ==>
                  w.waits && w.target.Some? && w.target.value.durableWaits))
      && (after.rejected <==> !ok)
      && s.progress.log <= after.progress.log
      && (ok ==> after.progress.log != [] && after.progress.log[|after.progress.log| - 1].event == e)
  {
    hide Commit, RecordInv, InOrder, TraceInv, CleanedUp, FlagInv, FailureInv;
    NewAttemptInv(w, Execution);
    ObserveAllRecords(w, NEW_STREAM, events, Execution);
    StillAccepting(w, NEW_STREAM, events);
    var s := ObserveAll(w, NEW_STREAM, events);
    CommitExactly(w, s.progress, e);
    CommitExtends(w, s.progress, e);
  }

  /** The product's own end of a stream is recorded by the same law. */
  lemma SupplyRecords(w: World, p: Progress, err: Err, outcome: Outcome, failure: Failure)
    requires IterationOrder(w) && RecordInv(p) && TraceInv(w, p) && FlagInv(w, p.log) && !p.contract.terminal
    requires outcome == Failed || outcome == Cancelled
    ensures var (q, ok) := Supply(w, p, err, outcome, failure);
      && RecordInv(q) && FlagInv(w, q.log)
      && (ok && !p.contract.fatal ==> FailedWith(q.log, failure))
  {
    hide Commit, FlagInv, FailedWith, Risky;
    var start := p.(outcome := outcome, failure := failure);
    var fatal, end := FatalEvent(err, failure), CompletedEvent(outcome);
    if !p.contract.fatal {
      CommitRecords(w, start, fatal);
      CommitFailure(w, start, fatal, failure);
      CommitKeeps(w, start, fatal);
      CommitFlags(w, start, fatal);
    }
    var (q, ok) := if p.contract.fatal then (start, true) else Commit(w, start, fatal);
    if ok {
      CommitRecords(w, q, end);
      CommitFlags(w, q, end);
      CommitExtends(w, q, end);
      if !p.contract.fatal { FailedLonger(q.log, Commit(w, q, end).0.log, failure); }
    }
  }
}
