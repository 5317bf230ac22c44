/** What the durable record of an attempt looks like after any callbacks of any
    engine, whatever the store answers. */
module HubTrace {
  import opened EngineContract
  import opened HubAttempt
  import opened Wrappers

  ghost predicate EndedLater(log: seq<Entry>, i: nat) {
    exists j :: i < j < |log| && log[i].event.kind == ToolStart
      && log[j].event.kind == ToolEnd && log[j].event.id == log[i].event.id
  }

  /** Every recorded tool start has been answered, or its id is still open. */
  ghost predicate StartsTracked(p: Progress) {
    forall i :: 0 <= i < |p.log| && p.log[i].event.kind == ToolStart ==>
      EndedLater(p.log, i) || p.log[i].event.id in p.open
  }

  /** The flag in memory, and the flag written with each entry, know every risky entry so far. */
  ghost predicate RiskTracked(w: World, p: Progress) {
    && (p.sideEffects <==> exists i :: 0 <= i < |p.log| && Risky(w, p.log[i].event))
    && (forall i, j :: 0 <= i <= j < |p.log| && Risky(w, p.log[i].event) ==> p.log[j].possible)
  }

  /** Completed is recorded at most once, as the last entry, and decides the outcome. */
  ghost predicate EndTracked(p: Progress) {
    && (forall i :: 0 <= i < |p.log| - 1 ==> p.log[i].event.kind != Completed)
    && (p.contract.terminal <==> CompletedLast(p.log))
    && (p.contract.terminal ==> p.outcome == p.log[|p.log| - 1].event.outcome && p.open == map[])
    && (!p.contract.terminal ==> p.outcome != Succeeded && p.outcome != Waiting)
  }

  predicate CompletedLast(log: seq<Entry>) {
    log != [] && log[|log| - 1].event.kind == Completed
  }

  ghost predicate TraceInv(w: World, p: Progress) {
    && p.open.Keys == p.contract.tools
    && StartsTracked(p)
    && RiskTracked(w, p)
    && EndTracked(p)
  }

  // ------------------------------------------------------------ preservation

  lemma AcceptedShape(c: Contract, e: Event)
    requires Accept(c, e).Some?
    ensures var c' := Accept(c, e).value;
            && !c.terminal
            && (c'.terminal <==> e.kind == Completed)
            && (e.kind == Completed ==> c.tools == {})
            && c'.tools == (if e.kind == ToolStart then c.tools + {e.id}
                            else if e.kind == ToolEnd then c.tools - {e.id} else c.tools)
            && (c'.fatal <==> if e.kind == Error then !e.recoverable else c.fatal)
  {
  }

  /** Recording one event and publishing it. */
  lemma RecordKeeps(w: World, p: Progress, e: Event, possible: bool)
    requires TraceInv(w, p) && Store(w, p, e, possible).1
    requires p.sideEffects || Risky(w, e) ==> possible
    ensures TraceInv(w, Publish(w, Store(w, p, e, possible).0, e))
  {
    hide Accept, Risky, StartsTracked, RiskTracked, EndTracked;
    AcceptedShape(p.contract, e);
    var q := Publish(w, Store(w, p, e, possible).0, e);
    StartsAppend(p, q, e, possible);
    RiskAppends(w, p, q, e, possible);
    EndAppends(p, q, e, possible);
  }

  lemma StartsAppend(p: Progress, q: Progress, e: Event, possible: bool)
    requires StartsTracked(p) && q.log == p.log + [Entry(e, possible)]
    requires q.open == if e.kind == ToolStart then p.open[e.id := e.name]
                       else if e.kind == ToolEnd then p.open - {e.id} else p.open
    ensures StartsTracked(q)
  {
    var n := |p.log|;
    forall i | 0 <= i < |q.log| && q.log[i].event.kind == ToolStart
      ensures EndedLater(q.log, i) || q.log[i].event.id in q.open
    {
      if i < n && EndedLater(p.log, i) {
        var j :| i < j < n && p.log[j].event.kind == ToolEnd && p.log[j].event.id == p.log[i].event.id;
        assert q.log[j] == p.log[j];
      } else if i < n && e.kind == ToolEnd && e.id == p.log[i].event.id {
        assert q.log[n].event == e;
      }
    }
  }

  lemma EndAppends(p: Progress, q: Progress, e: Event, possible: bool)
    requires EndTracked(p) && !p.contract.terminal && q.log == p.log + [Entry(e, possible)]
    requires q.contract.terminal <==> e.kind == Completed
    requires q.outcome == (if e.kind == Completed then e.outcome else p.outcome)
    requires e.kind == Completed ==> q.open.Keys == {}
    ensures EndTracked(q)
  {
    assert e.kind == Completed ==> q.open == map[];
    assert q.log[|q.log| - 1].event == e;
  }

  lemma RiskAppends(w: World, p: Progress, q: Progress, e: Event, possible: bool)
    requires RiskTracked(w, p) && q.log == p.log + [Entry(e, possible)]
    requires q.sideEffects <==> p.sideEffects || Risky(w, e)
    requires p.sideEffects || Risky(w, e) ==> possible
    ensures RiskTracked(w, q)
  {
    hide Risky;
    var n := |p.log|;
    if i :| 0 <= i < n && Risky(w, p.log[i].event) { assert q.log[i] == p.log[i]; }
    assert Risky(w, e) ==> Risky(w, q.log[n].event);
    if i :| 0 <= i < |q.log| && Risky(w, q.log[i].event) {
      assert i < n ==> q.log[i] == p.log[i];
    }
  }

  lemma CloseOneKeeps(w: World, p: Progress, id: string)
    requires TraceInv(w, p) && id in p.open && CloseOne(w, p, id).1
    ensures TraceInv(w, CloseOne(w, p, id).0)
    ensures CloseOne(w, p, id).0.contract.fatal == p.contract.fatal
  {
    var e := Cleanup(id, p.open[id]);
    RecordKeeps(w, p, e, true);
    AcceptedShape(p.contract, e);
    assert CloseOne(w, p, id).0 == Publish(w, Store(w, p, e, true).0, e);
  }

  lemma FailedStoreKeeps(w: World, p: Progress, e: Event, possible: bool)
    requires TraceInv(w, p) && !Store(w, p, e, possible).1
    ensures TraceInv(w, Store(w, p, e, possible).0)
  {
    hide Accept, Risky;
  }

  lemma {:induction false} CloseAllKeeps(w: World, p: Progress)
    requires IterationOrder(w) && TraceInv(w, p)
    ensures TraceInv(w, CloseAll(w, p).0)
    ensures CloseAll(w, p).1 ==> CloseAll(w, p).0.open == map[]
    decreases |p.open|
  {
    hide TraceInv, Store, Cleanup;
    if p.open != map[] {
      assert p.open.Keys != {} by { var k :| k in p.open; }
      var id := w.pick(p.calls, p.open.Keys);
      var (q, ok) := CloseOne(w, p, id);
      if ok {
        CloseOneKeeps(w, p, id);
        CloseOneShrinks(w, p, id);
        CloseAllKeeps(w, q);
      } else {
        FailedStoreKeeps(w, p, Cleanup(id, p.open[id]), true);
      }
    }
  }

  lemma CloseOneShrinks(w: World, p: Progress, id: string)
    requires id in p.open && CloseOne(w, p, id).1
    ensures |CloseOne(w, p, id).0.open| < |p.open|
  {
    var q := CloseOne(w, p, id).0;
    assert q.open.Keys == p.open.Keys - {id};
    assert |q.open.Keys| < |p.open.Keys|;
  }

  lemma CommitKeeps(w: World, p: Progress, e: Event)
    requires IterationOrder(w) && TraceInv(w, p)
    ensures TraceInv(w, Commit(w, p, e).0)
  {
    hide TraceInv, Store, Publish, CloseAll;
    if !WaitUnavailable(w, e) {
      if Ends(e) { CloseAllKeeps(w, p); }
      var (q, closed) := if Ends(e) then CloseAll(w, p) else (p, true);
      if closed {
        var possible := q.sideEffects || Risky(w, e);
        if Store(w, q, e, possible).1 {
          RecordKeeps(w, q, e, possible);
        } else {
          FailedStoreKeeps(w, q, e, possible);
        }
      }
    }
  }

  /** `now` has only appended to `before`, and remembers a failed write only with an error. */
  ghost predicate Extends(before: Progress, now: Progress, ok: bool) {
    && before.log <= now.log
    && (ok ==> now.persistenceErr == before.persistenceErr)
    && (!ok ==> now.contract.terminal == before.contract.terminal)
  }

  lemma {:induction false} CloseAllExtends(w: World, p: Progress)
    requires IterationOrder(w)
    ensures var (q, ok) := CloseAll(w, p);
            Extends(p, q, ok) && q.contract.terminal == p.contract.terminal
    decreases |p.open|
  {
    hide Accept;
    if p.open != map[] {
      assert p.open.Keys != {} by { var k :| k in p.open; }
      var id := w.pick(p.calls, p.open.Keys);
      var (q, ok) := CloseOne(w, p, id);
      if ok {
        AcceptedShape(p.contract, Cleanup(id, p.open[id]));
        CloseOneShrinks(w, p, id);
        CloseAllExtends(w, q);
      }
    }
  }

  lemma CommitExtends(w: World, p: Progress, e: Event)
    requires IterationOrder(w)
    ensures var (q, ok) := Commit(w, p, e);
            Extends(p, q, ok) && (ok ==> (q.contract.terminal <==> e.kind == Completed))
  {
    hide Accept, CloseAll, Risky, WaitUnavailable;
    if Ends(e) { CloseAllExtends(w, p); }
    var (q, closed) := if Ends(e) then CloseAll(w, p) else (p, true);
    if closed && Accept(q.contract, e).Some? { AcceptedShape(q.contract, e); }
  }

  ghost predicate StreamInv(w: World, s: Stream) {
    TraceInv(w, s.progress) && (s.progress.persistenceErr ==> s.rejected)
  }

  lemma ObserveKeeps(w: World, s: Stream, e: Event)
    requires IterationOrder(w) && StreamInv(w, s)
    ensures StreamInv(w, Observe(w, s, e).0)
  {
    hide Commit, TraceInv;
    CommitKeeps(w, s.progress, e);
    CommitExtends(w, s.progress, e);
  }

  lemma {:induction false} ObserveAllKeeps(w: World, s: Stream, events: seq<Event>)
    requires IterationOrder(w) && StreamInv(w, s)
    ensures StreamInv(w, ObserveAll(w, s, events))
    decreases |events|
  {
    hide StreamInv, Observe;
    if events != [] {
      ObserveKeeps(w, s, events[0]);
      ObserveAllKeeps(w, Observe(w, s, events[0]).0, events[1..]);
    }
  }

  lemma NewStreamInv(w: World)
    ensures StreamInv(w, NEW_STREAM)
  {
  }

  /** A rejected callback is final, and so is the return of Execute: whatever
      the engine still sends, nothing is recorded and nothing changes. */
  lemma {:induction false} ClosedStreamIsFinal(w: World, s: Stream, events: seq<Event>)
    requires IterationOrder(w) && (s.rejected || !s.accepting)
    ensures ObserveAll(w, s, events) == s
    decreases |events|
  {
    if events != [] { ClosedStreamIsFinal(w, s, events[1..]); }
  }

  // --------------------------------------------------------------- verdicts

  ghost predicate PairedBeforeCompleted(log: seq<Entry>) {
    forall i, k :: 0 <= i < |log| && 0 <= k < |log| && log[i].event.kind == ToolStart && log[k].event.kind == Completed
      ==> exists j :: i < j < k && log[j].event.kind == ToolEnd && log[j].event.id == log[i].event.id
  }

  ghost predicate CompletedOnce(log: seq<Entry>) {
    forall i :: 0 <= i < |log| - 1 ==> log[i].event.kind != Completed
  }

  ghost predicate RiskRecorded(w: World, log: seq<Entry>) {
    exists i :: 0 <= i < |log| && Risky(w, log[i].event)
  }

  lemma TraceInvMeans(w: World, p: Progress)
    requires TraceInv(w, p)
    ensures CompletedOnce(p.log) && PairedBeforeCompleted(p.log)
    ensures p.sideEffects <==> RiskRecorded(w, p.log)
    ensures p.contract.terminal <==> CompletedLast(p.log)
    ensures !p.contract.terminal ==> p.outcome != Succeeded && p.outcome != Waiting
    ensures p.contract.terminal ==> p.outcome == p.log[|p.log| - 1].event.outcome
  {
    hide Risky;
    var log := p.log;
    forall i, k | 0 <= i < |log| && 0 <= k < |log| && log[i].event.kind == ToolStart && log[k].event.kind == Completed
      ensures exists j :: i < j < k && log[j].event.kind == ToolEnd && log[j].event.id == log[i].event.id
    {
      assert k == |log| - 1 && EndedLater(log, i);
      var j :| i < j < |log| && log[j].event.kind == ToolEnd && log[j].event.id == log[i].event.id;
    }
  }

  lemma SupplyTrace(w: World, p: Progress, err: Err, outcome: Outcome, failure: Failure)
    requires IterationOrder(w) && TraceInv(w, p) && !p.contract.terminal
    requires outcome == Failed || outcome == Cancelled
    ensures var (q, ok) := Supply(w, p, err, outcome, failure);
            TraceInv(w, q) && p.log <= q.log && (ok <==> q.contract.terminal)
  {
    hide Commit, Risky;
    var start := p.(outcome := outcome, failure := failure);
    var fatal := FatalEvent(err, failure);
    if !p.contract.fatal {
      CommitKeeps(w, start, fatal);
      CommitExtends(w, start, fatal);
    }
    var (q, ok) := if p.contract.fatal then (start, true) else Commit(w, start, fatal);
    CommitKeeps(w, q, CompletedEvent(outcome));
    CommitExtends(w, q, CompletedEvent(outcome));
  }

  /** What a verdict says about the stream it was reached on. */
  ghost predicate Sound(w: World, s: Stream, result: Option<Err>, v: Verdict) {
    var log := v.stream.progress.log;
    && CompletedOnce(log) && PairedBeforeCompleted(log)
    && s.progress.log <= log && (s.rejected ==> log == s.progress.log)
    && v.stream.rejected == s.rejected && !v.stream.accepting
    && (s.progress.persistenceErr ==> s.rejected)
    && (v.outcome == Succeeded <==>
          !s.rejected && result.None? && CompletedLast(s.progress.log) &&
          s.progress.log[|s.progress.log| - 1].event.outcome == Succeeded)
    && (!v.sideEffects <==>
          !s.rejected && CompletedLast(log) && !RiskRecorded(w, log) &&
          !(CompletedLast(s.progress.log) && result.Some?))
  }

  lemma ConcludeIsSound(w: World, s: Stream, result: Option<Err>, cancelled: bool)
    requires IterationOrder(w) && StreamInv(w, s)
    ensures Sound(w, s, result, Conclude(w, s, result, cancelled))
  {
    hide TraceInv, Supply, RiskRecorded, CompletedOnce, PairedBeforeCompleted;
    TraceInvMeans(w, s.progress);
    if !s.progress.contract.terminal {
      var (err, outcome, failure) := MissingEnd(s.progress, result, cancelled);
      SupplyTrace(w, s.progress, err, outcome, failure);
      TraceInvMeans(w, Supply(w, s.progress, err, outcome, failure).0);
    }
  }

  /** The record of an attempt, for every callback sequence, engine result and
      store: tools are paired before the one Completed, which comes last;
      nothing follows a rejected callback; a failed write is always a rejected
      callback, so the second guard of the verdict never decides; `Succeeded` is
      reported exactly when it was recorded, the engine returned no error and no
      callback was rejected; and "no side effects" is reported exactly when
      nothing was rejected, the end was recorded, the engine's own completion
      was not contradicted by an error, and nothing risky was recorded. */
  lemma AttemptIntegrity(w: World, events: seq<Event>, result: Option<Err>, cancelled: bool)
    requires IterationOrder(w)
    ensures var s := ObserveAll(w, NEW_STREAM, events);
            Sound(w, s, result, Conclude(w, s, result, cancelled))
  {
    hide StreamInv, Sound, Conclude;
    NewStreamInv(w);
    ObserveAllKeeps(w, NEW_STREAM, events);
    ConcludeIsSound(w, ObserveAll(w, NEW_STREAM, events), result, cancelled);
  }
}
