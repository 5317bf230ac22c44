/** When another engine is tried, in the terms of the recorded events and of the
    store: after which attempts, for which target, and how a Turn is finished. */
module HubEffects {
  import opened EngineContract
  import opened EngineTrace
  import opened HubAttempt
  import opened HubTrace
  import opened HubRecord
  import opened HubFallback
  import opened HubSafety
  import opened Wrappers

  lemma ConcludeRecords(w: World, s: Stream, result: Option<Err>, cancelled: bool, initial: Failure)
    requires IterationOrder(w) && AttemptInv(w, s.progress, initial)
    requires s.progress.contract.terminal ==> initial == Execution
    ensures var v := Conclude(w, s, result, cancelled);
      var p := v.stream.progress;
      && AcceptAll(NEW_CONTRACT, Events(p.log)) == Some(p.contract) && FlagInv(w, p.log)
      && (!v.sideEffects && (v.failure == Startup || v.failure == RateLimit) ==> FailedWith(p.log, v.failure))
  {
    hide TraceInv, FlagInv, Supply, FailedWith;
    var p := s.progress;
    if !p.contract.terminal {
      var (err, outcome, failure) := MissingEnd(p, result, cancelled);
      SupplyRecords(w, p, err, outcome, failure);
      SupplyTrace(w, p, err, outcome, failure);
      if p.contract.fatal { FailedLonger(p.log, Supply(w, p, err, outcome, failure).0.log, p.failure); }
    }
  }

  lemma AttemptedRecords(env: Env, n: nat, claim: Claim)
    requires MapOrders(env)
    ensures var w := WorldOf(env, n, claim);
      var v := Attempted(env, n, claim);
      var p := v.stream.progress;
      && AcceptAll(NEW_CONTRACT, Events(p.log)) == Some(p.contract) && FlagInv(w, p.log)
      && (!v.sideEffects && (v.failure == Startup || v.failure == RateLimit) ==> FailedWith(p.log, v.failure))
  {
    hide Conclude, AttemptInv, ObserveAll, IterationOrder, FlagInv, FailedWith, AcceptAll, Supports;
    var w := WorldOf(env, n, claim);
    assert IterationOrder(w);
    var refusal := Refusal(w, claim);
    var (s, result) := Played(env, n, claim);
    var initial := if refusal.Some? then refusal.value.1 else Execution;
    NewAttemptInv(w, initial);
    if refusal.None? && env.admission(n).None? && env.handoff(n).None? {
      ObserveAllRecords(w, NEW_STREAM, env.callbacks(n), Execution);
    }
    ConcludeRecords(w, s, result, env.cancelled(n), initial);
  }

  /** The flag written with each entry, the product's own ends of tools excepted,
      is set exactly when something recorded by then may have had an effect. */
  lemma FlagsAreExact(env: Env, n: nat, claim: Claim, j: nat)
    requires MapOrders(env) && j < |Attempted(env, n, claim).stream.progress.log|
    ensures var w := WorldOf(env, n, claim);
      var log := Attempted(env, n, claim).stream.progress.log;
      !(log[j].event.kind == ToolEnd && log[j].event.text == CLEANUP_TEXT) ==>
        (log[j].possible <==> exists i :: 0 <= i <= j && MayHaveActed(w, log[i].event))
  {
    hide Attempted, Risky, AcceptAll, MayHaveActed;
    var w, p := WorldOf(env, n, claim), Attempted(env, n, claim).stream.progress;
    AttemptedRecords(env, n, claim);
    RiskMeans(w, p);
    if i :| 0 <= i <= j && Risky(w, p.log[i].event) { assert RiskyBy(w, p.log, j); }
  }

  /** "No side effects" is said exactly when no callback was refused, the end was
      recorded, Execute did not contradict it with an error, and nothing recorded
      may have had an effect. */
  lemma VerdictIsExact(env: Env, n: nat, claim: Claim)
    requires MapOrders(env)
    ensures var (s, result) := Played(env, n, claim);
      var v := Attempted(env, n, claim);
      var log := v.stream.progress.log;
      !v.sideEffects <==>
        && !s.rejected && CompletedLast(log) && !(CompletedLast(s.progress.log) && result.Some?)
        && forall i :: 0 <= i < |log| ==> !MayHaveActed(WorldOf(env, n, claim), log[i].event)
  {
    hide Attempted, Played, Risky, AcceptAll, CompletedOnce, PairedBeforeCompleted, MayHaveActed;
    AttemptedIsSound(env, n, claim);
    AttemptedRecords(env, n, claim);
    RiskMeans(WorldOf(env, n, claim), Attempted(env, n, claim).stream.progress);
  }

  /** A stream holds at most one fatal error. */
  lemma OneFatal(h: seq<Event>, i: nat, j: nat)
    requires LawfulStream(h) && i < j < |h|
    ensures !Fatal(h[i]) || !Fatal(h[j])
  {
    hide ToolOpen;
    assert Lawful(h[..j], h[j]) && h[..j][i] == h[i];
  }

  lemma OneFailure(p: Progress, initial: Failure, k: nat)
    requires RecordInv(p) && FailureInv(p, initial) && k < |p.log| && Fatal(p.log[k].event)
    ensures p.failure == p.log[k].event.failure
  {
    hide LawfulStream;
    RecordTracks(p);
    assert Fatal(Events(p.log)[k]);
    var i :| 0 <= i < |p.log| && Fatal(p.log[i].event) && p.log[i].event.failure == p.failure;
    if i < k { OneFatal(Events(p.log), i, k); }
    if k < i { OneFatal(Events(p.log), k, i); }
  }

  /** The failure of an attempt that ended in order is the one its engine reported. */
  lemma FailureIsReported(env: Env, n: nat, claim: Claim, k: nat)
    requires MapOrders(env)
    requires var (s, result) := Played(env, n, claim);
      && !s.rejected && result.None? && CompletedLast(s.progress.log)
      && k < |s.progress.log| && s.progress.log[k].event.kind == Error && !s.progress.log[k].event.recoverable
    ensures Attempted(env, n, claim).failure == Played(env, n, claim).0.progress.log[k].event.failure
  {
    hide ObserveAll, IterationOrder, TraceInv, FlagInv, RecordInv, FailureInv;
    var w := WorldOf(env, n, claim);
    assert IterationOrder(w);
    NewAttemptInv(w, Execution);
    ObserveAllRecords(w, NEW_STREAM, env.callbacks(n), Execution);
    PlayedInv(env, n, claim);
    var p := Played(env, n, claim).0.progress;
    TraceInvMeans(w, p);
    OneFailure(p, Execution, k);
  }

  lemma HarmlessMeans(env: Env, n: nat, claim: Claim, k: nat)
    requires MapOrders(env) && Harmless(env, n, claim) && !Attempted(env, n, claim).sideEffects
    requires k < |Attempted(env, n, claim).stream.progress.log|
    ensures var engine := env.engine(n, claim.target.engine);
      var log := Attempted(env, n, claim).stream.progress.log;
      var e := log[k].event;
      && !(e.kind == ToolStart && e.effect != Read)
      && (e.kind == ExecutionActivity ==> e.activity.Some? && e.activity.value.effect in {Read, NoEffect})
      && (e.kind == SessionStarted ==> engine.None? || engine.value.toolControl)
      && (log[k].possible ==> e.kind == ToolEnd && e.text == CLEANUP_TEXT)
      && exists i :: 0 <= i < |log| && log[i].event.kind == Error && !log[i].event.recoverable
                     && log[i].event.failure in {Startup, RateLimit}
  {
    hide Attempted, Risky, AcceptAll, CompletedOnce, PairedBeforeCompleted, MapOrders;
    var v := Attempted(env, n, claim);
    var log := v.stream.progress.log;
    AttemptedRecords(env, n, claim);
    RiskMeans(WorldOf(env, n, claim), v.stream.progress);
    assert !MayHaveActed(WorldOf(env, n, claim), log[k].event);
    var i :| 0 <= i < |log| && Fatal(log[i].event) && log[i].event.failure == v.failure;
  }

  /** An attempt that another follows, or whose successor was begun when the
      budget ran out, recorded nothing that can have had an effect, and recorded
      a startup or rate-limit failure as the reason to go on. */
  lemma NothingActedBefore(env: Env, first: Claim, n: nat, k: nat)
    requires MapOrders(env) && FaithfulStore(env)
    requires var r := Run(env, 0, first, {});
      n < |r.attempts| && (n + 1 < |r.attempts| || r.abandoned.Some?)
    requires k < |Attempted(env, n, Run(env, 0, first, {}).attempts[n]).stream.progress.log|
    ensures var claim := Run(env, 0, first, {}).attempts[n];
      var engine := env.engine(n, claim.target.engine);
      var log := Attempted(env, n, claim).stream.progress.log;
      var e := log[k].event;
      && !(e.kind == ToolStart && e.effect != Read)
      && (e.kind == ExecutionActivity ==> e.activity.Some? && e.activity.value.effect in {Read, NoEffect})
      && (e.kind == SessionStarted ==> engine.None? || engine.value.toolControl)
      && (log[k].possible ==> e.kind == ToolEnd && e.text == CLEANUP_TEXT)
      && exists i :: 0 <= i < |log| && log[i].event.kind == Error && !log[i].event.recoverable
                     && log[i].event.failure in {Startup, RateLimit}
  {
    hide Attempted, Run, MapOrders, FaithfulStore, RouteKey, Harmless, WorldOf;
    RunShape(env, 0, first, {});
    FallbackSafety(env, first);
    var r := Run(env, 0, first, {});
    assert WentOn(env, 0, r, n);
    HarmlessMeans(env, n, r.attempts[n], k);
  }

  /** An engine that is not registered, cannot keep a wait it is to continue, lacks
      a required capability or cannot resume a retained conversation is not
      started: only the product's own end is recorded, as a failure, which is a
      startup failure when the engine or a capability is missing. */
  lemma NotStarted(env: Env, n: nat, claim: Claim)
    requires MapOrders(env)
    requires var engine := env.engine(n, claim.target.engine);
      || engine.None?
      || (claim.waitRevision != 0 && !engine.value.durableWaits)
      || (exists c :: c in claim.target.required && !Offers(engine.value, c))
      || (claim.native != "" && !engine.value.resume)
    ensures var engine := env.engine(n, claim.target.engine);
      var v := Attempted(env, n, claim);
      && v.outcome == Failed
      && (forall i :: 0 <= i < |v.stream.progress.log| ==> v.stream.progress.log[i].event.kind in {Error, Completed})
      && (v.failure == Startup <==>
            || engine.None?
            || ((claim.waitRevision == 0 || engine.value.durableWaits)
                && exists c :: c in claim.target.required && !Offers(engine.value, c)))
  {
    hide Offers, Supply, IterationOrder;
    var w := WorldOf(env, n, claim);
    assert IterationOrder(w);
    if w.target.Some? { SupportsMeans(w.target.value, claim.target.required); }
    var refusal := Refusal(w, claim).value;
    var p := NEW_PROGRESS.(failure := refusal.1);
    assert p.open == map[] && p.log == [];
    SupplyFromNew(w, p, refusal.0, Failed, refusal.1);
  }

  lemma SupportsMeans(c: Capabilities, required: seq<string>)
    ensures Supports(c, required) <==> forall name :: name in required ==> Offers(c, name)
  {
    hide Offers;
    if Supports(c, required) {
      forall name | name in required ensures Offers(c, name) {
        var i :| 0 <= i < |required| && required[i] == name;
      }
    }
  }

  lemma SupplyFromNew(w: World, p: Progress, err: Err, outcome: Outcome, failure: Failure)
    requires IterationOrder(w) && p.open == map[] && p.log == [] && !p.contract.fatal
    ensures forall x :: x in Supply(w, p, err, outcome, failure).0.log ==> x.event.kind in {Error, Completed}
  {
    hide Commit;
    var start := p.(outcome := outcome, failure := failure);
    CommitEnd(w, start, FatalEvent(err, failure));
    CommitEnd(w, Commit(w, start, FatalEvent(err, failure)).0, CompletedEvent(outcome));
  }

  lemma CommitEnd(w: World, p: Progress, e: Event)
    requires IterationOrder(w) && p.open == map[] && e.kind in {Error, Completed}
    requires forall x :: x in p.log ==> x.event.kind in {Error, Completed}
    ensures Commit(w, p, e).0.open == map[]
    ensures forall x :: x in Commit(w, p, e).0.log ==> x.event.kind in {Error, Completed}
  {
    hide Accept, Risky, WaitUnavailable;
    NothingToClose(w, p);
  }

  /** Any other engine whose workspace is admitted and whose handoff is made is
      started: the attempt is its callbacks and its result. */
  lemma Started(env: Env, n: nat, claim: Claim)
    requires MapOrders(env) && env.engine(n, claim.target.engine).Some?
    requires var engine := env.engine(n, claim.target.engine).value;
      && (claim.waitRevision != 0 ==> engine.durableWaits)
      && (forall c :: c in claim.target.required ==> Offers(engine, c))
      && (claim.native != "" ==> engine.resume)
    requires env.admission(n).None? && env.handoff(n).None?
    ensures IterationOrder(WorldOf(env, n, claim))
    ensures Played(env, n, claim) == (ObserveAll(WorldOf(env, n, claim), NEW_STREAM, env.callbacks(n)), env.result(n))
  {
    hide Offers, ObserveAll, IterationOrder;
    assert IterationOrder(WorldOf(env, n, claim));
    SupportsMeans(env.engine(n, claim.target.engine).value, claim.target.required);
  }

  /** How an attempt ends: as failed if a callback was refused or its recorded end
      was contradicted by an error, else as recorded; and without a recorded end as
      cancelled exactly if the context ended and the error is nothing but that. */
  lemma OutcomeIsExact(env: Env, n: nat, claim: Claim)
    requires MapOrders(env)
    ensures var (s, result) := Played(env, n, claim);
      var v := Attempted(env, n, claim);
      v.outcome ==
        if s.rejected || (CompletedLast(s.progress.log) && result.Some?) then Failed
        else if CompletedLast(s.progress.log) then s.progress.log[|s.progress.log| - 1].event.outcome
        else if env.cancelled(n) && result.Some? && CancellationOnly(result.value) then EngineContract.Cancelled
        else Failed
  {
    hide Played, Supply, IterationOrder;
    PlayedInv(env, n, claim);
    TraceInvMeans(WorldOf(env, n, claim), Played(env, n, claim).0.progress);
  }

  // ---------------------------------------------------------- whom to try next

  /** The store begins the `i`-th target of the list, which the owner authorised
      for automatic use, which no attempt of the Turn has used the route of, and
      whose engine is registered and offers every capability it requires. */
  ghost predicate Begins(env: Env, n: nat, claim: Claim, targets: seq<Target>, tried: set<Key>, i: int) {
    && 0 <= i < |targets|
    && targets[i].automatic && RouteKey(targets[i]) !in tried
    && env.engine(n, targets[i].engine).Some?
    && (forall c :: c in targets[i].required ==> Offers(env.engine(n, targets[i].engine).value, c))
    && env.begin(n, i, claim, targets[i]).Some?
  }

  ghost predicate FirstBegun(
    env: Env, n: nat, claim: Claim, targets: seq<Target>, tried: set<Key>, from: nat, k: int, next: Option<Claim>)
  {
    && from <= k && Begins(env, n, claim, targets, tried, k) && next == env.begin(n, k, claim, targets[k])
    && forall j :: from <= j < k ==> !Begins(env, n, claim, targets, tried, j)
  }

  lemma {:induction false} ChooseIsFirst(env: Env, n: nat, claim: Claim, targets: seq<Target>, tried: set<Key>, i: nat)
    requires i <= |targets|
    ensures var next := Choose(env, n, claim, targets, tried, i);
      && (next.None? ==> forall k :: i <= k ==> !Begins(env, n, claim, targets, tried, k))
      && (next.Some? ==> exists k :: FirstBegun(env, n, claim, targets, tried, i, k, next))
    decreases |targets| - i
  {
    hide RouteKey, Offers, Eligible, Supports;
    if i < |targets| {
      EligibleMeans(env, n, tried, targets[i]);
      ChooseIsFirst(env, n, claim, targets, tried, i + 1);
      var next := Choose(env, n, claim, targets, tried, i);
      if Begins(env, n, claim, targets, tried, i) {
        assert FirstBegun(env, n, claim, targets, tried, i, i, next);
      } else if next.Some? {
        var k :| FirstBegun(env, n, claim, targets, tried, i + 1, k, next);
        assert FirstBegun(env, n, claim, targets, tried, i, k, next);
      }
    }
  }

  lemma EligibleMeans(env: Env, n: nat, tried: set<Key>, target: Target)
    ensures Eligible(env, n, tried, target) <==>
      && target.automatic && RouteKey(target) !in tried && env.engine(n, target.engine).Some?
      && forall c :: c in target.required ==> Offers(env.engine(n, target.engine).value, c)
  {
    hide RouteKey, Offers, Supports;
    if env.engine(n, target.engine).Some? { SupportsMeans(env.engine(n, target.engine).value, target.required); }
  }

  /** The capability names are those of the engine contract. */
  lemma OffersNames(c: Capabilities)
    ensures Offers(c, "durable_waits") == c.durableWaits && Offers(c, "streaming") == c.streaming
    ensures Offers(c, "resume") == c.resume && Offers(c, "cancel") == c.cancel
    ensures Offers(c, "permission_callback") == c.permissionCallback && Offers(c, "tool_control") == c.toolControl
    ensures forall name :: Offers(c, name) ==>
      name in {"durable_waits", "streaming", "resume", "cancel", "permission_callback", "tool_control"}
  {
  }

  /** The routes of the first `n` attempts. */
  function Routes(attempts: seq<Claim>, n: nat): set<Key>
    requires n <= |attempts|
  {
    set i | 0 <= i < n :: RouteKey(attempts[i].target)
  }

  /** May the Turn go on after this attempt, as far as the attempt is concerned? */
  predicate MayGoOn(env: Env, n: nat, claim: Claim, v: Verdict) {
    && v.outcome in {Failed, Interrupted, UnknownOutcome} && v.failure in {Startup, RateLimit} && !v.sideEffects
    && !env.cancelledAfter(n) && claim.waitRevision == 0 && claim.automation == ""
  }

  /** The claim that follows attempt `n` of a report, if any. */
  function Successor(r: Report, n: nat): Option<Claim>
    requires n < |r.attempts|
  {
    if n + 1 < |r.attempts| then Some(r.attempts[n + 1]) else r.abandoned
  }

  /** What follows attempt `n` of the report, the `at`-th of the Turn. */
  ghost predicate WellChosen(env: Env, r: Report, n: nat, at: nat, tried: set<Key>)
    requires n < |r.attempts| && n < |r.verdicts|
  {
    var claim, v, next, list := r.attempts[n], r.verdicts[n], Successor(r, n), env.fallback(at);
    && (next.Some? ==>
          && MayGoOn(env, at, claim, v) && list.Some?
          && exists k :: FirstBegun(env, at, claim, list.value, tried, 0, k, next))
    && (next.None? ==>
          && (MayGoOn(env, at, claim, v) && list.Some? ==> forall k: nat :: !Begins(env, at, claim, list.value, tried, k))
          && r.finishes == [(claim.turn, if MayGoOn(env, at, claim, v) && list.None? then Failed else v.outcome)])
  }

  lemma FirstIsWellChosen(env: Env, n: nat, claim: Claim, tried: set<Key>)
    requires MapOrders(env) && n < ATTEMPT_BUDGET
    ensures var r := Run(env, n, claim, tried);
      && |r.attempts| > 0 && |r.verdicts| > 0 && r.attempts[0] == claim && r.verdicts[0] == Attempted(env, n, claim)
      && WellChosen(env, r, 0, n, tried + {RouteKey(claim.target)})
  {
    hide Attempted, RouteKey, Begins, Choose, MapOrders;
    var v, seen := Attempted(env, n, claim), tried + {RouteKey(claim.target)};
    if !Final(env, n, claim, v) && env.fallback(n).Some? {
      ChooseIsFirst(env, n, claim, env.fallback(n).value, seen, 0);
    }
    var decision := Decide(env, n, claim, v, seen);
    if decision.Continue? { RunStarts(env, n + 1, decision.next, seen); }
  }

  lemma RunStarts(env: Env, n: nat, claim: Claim, tried: set<Key>)
    requires MapOrders(env) && n <= ATTEMPT_BUDGET
    ensures var r := Run(env, n, claim, tried);
      if r.attempts == [] then r.abandoned == Some(claim) else r.attempts[0] == claim
  {
    hide Attempted, Decide, MapOrders, RouteKey;
  }

  lemma RunUnfold(env: Env, m: nat, claim: Claim, tried: set<Key>)
    requires MapOrders(env) && m <= ATTEMPT_BUDGET
    ensures var r := Run(env, m, claim, tried);
      var v, seen := Attempted(env, m, claim), tried + {RouteKey(claim.target)};
      |r.attempts| > 1 ==>
        && m < ATTEMPT_BUDGET && Decide(env, m, claim, v, seen).Continue?
        && var rest := Run(env, m + 1, Decide(env, m, claim, v, seen).next, seen);
           && r.attempts == [claim] + rest.attempts && r.verdicts == [v] + rest.verdicts
           && r.finishes == rest.finishes && r.abandoned == rest.abandoned
  {
    hide Attempted, RouteKey, MapOrders, Decide;
  }

  lemma {:induction false} RunIsWellChosen(env: Env, m: nat, claim: Claim, tried: set<Key>, n: nat)
    requires MapOrders(env) && m <= ATTEMPT_BUDGET && n < |Run(env, m, claim, tried).attempts|
    ensures var r := Run(env, m, claim, tried);
      && n < |r.verdicts| && r.verdicts[n] == Attempted(env, m + n, r.attempts[n])
      && WellChosen(env, r, n, m + n, tried + Routes(r.attempts, n + 1))
    decreases n
  {
    hide Run, Attempted, MapOrders, Decide, WellChosen, RouteKey;
    var seen := tried + {RouteKey(claim.target)};
    var r := Run(env, m, claim, tried);
    if n == 0 {
      OnlyFullBudgetIsEmpty(env, m, claim, tried);
      FirstIsWellChosen(env, m, claim, tried);
      assert Routes(r.attempts, 1) == {RouteKey(claim.target)};
    } else {
      hide Routes;
      RunUnfold(env, m, claim, tried);
      var next := Decide(env, m, claim, Attempted(env, m, claim), seen).next;
      var rest := Run(env, m + 1, next, seen);
      RunIsWellChosen(env, m + 1, next, seen, n - 1);
      RoutesNext(r.attempts, rest.attempts, claim, n);
      assert seen + Routes(rest.attempts, n) == tried + Routes(r.attempts, n + 1);
      LaterChosen(env, r, rest, n, m + n, tried + Routes(r.attempts, n + 1));
    }
  }

  lemma OnlyFullBudgetIsEmpty(env: Env, m: nat, claim: Claim, tried: set<Key>)
    requires MapOrders(env) && m <= ATTEMPT_BUDGET && |Run(env, m, claim, tried).attempts| > 0
    ensures m < ATTEMPT_BUDGET
  {
    hide Attempted, RouteKey, MapOrders, Decide;
  }

  lemma RoutesNext(all: seq<Claim>, rest: seq<Claim>, claim: Claim, n: nat)
    requires all == [claim] + rest && n <= |rest|
    ensures Routes(all, n + 1) == {RouteKey(claim.target)} + Routes(rest, n)
  {
    hide RouteKey;
    forall key | key in Routes(rest, n) ensures key in Routes(all, n + 1) {
      var i :| 0 <= i < n && key == RouteKey(rest[i].target);
      assert all[i + 1] == rest[i];
    }
    assert all[0] == claim;
    forall key | key in Routes(all, n + 1) ensures key in {RouteKey(claim.target)} + Routes(rest, n) {
      var i :| 0 <= i < n + 1 && key == RouteKey(all[i].target);
      assert i > 0 ==> all[i] == rest[i - 1];
    }
  }

  lemma LaterChosen(env: Env, r: Report, rest: Report, n: nat, at: nat, tried: set<Key>)
    requires |r.attempts| == |rest.attempts| + 1 && |r.verdicts| == |rest.verdicts| + 1
    requires r.attempts[1..] == rest.attempts && r.verdicts[1..] == rest.verdicts
    requires r.finishes == rest.finishes && r.abandoned == rest.abandoned
    requires 0 < n <= |rest.attempts| && n <= |rest.verdicts| && WellChosen(env, rest, n - 1, at, tried)
    ensures WellChosen(env, r, n, at, tried)
  {
    hide Begins, MayGoOn;
    assert r.attempts[n] == rest.attempts[n - 1] && r.verdicts[n] == rest.verdicts[n - 1];
    assert n + 1 < |r.attempts| ==> r.attempts[n + 1] == rest.attempts[n];
  }

  /** The whole of a Turn: after every attempt, another is begun exactly when the
      attempt left it open and the list holds a target the store begins, and then
      it is for the first such target; otherwise the Turn is finished, as failed
      if the list could not be read, else as the attempt ended. Only after eight
      attempts is a claim begun and not executed. */
  lemma EveryFallbackIsWellChosen(env: Env, first: Claim, n: nat)
    requires MapOrders(env) && FaithfulStore(env) && n < |Run(env, 0, first, {}).attempts|
    ensures var r := Run(env, 0, first, {});
      && n < |r.verdicts| && r.verdicts[n] == Attempted(env, n, r.attempts[n])
      && WellChosen(env, r, n, n, Routes(r.attempts, n + 1))
      && |r.attempts| <= 8 && (r.abandoned.Some? ==> |r.attempts| == 8 && r.finishes == [(first.turn, Failed)])
  {
    hide Attempted, WellChosen, RouteKey, Run, MapOrders, FaithfulStore;
    RunIsWellChosen(env, 0, first, {}, n);
    RunShape(env, 0, first, {});
    assert {} + Routes(Run(env, 0, first, {}).attempts, n + 1) == Routes(Run(env, 0, first, {}).attempts, n + 1);
  }
}
