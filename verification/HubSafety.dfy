/** What holds of a whole Turn, however its engines, its store and its owner behave. */
module HubSafety {
  import opened EngineContract
  import opened HubAttempt
  import opened HubTrace
  import opened HubFallback
  import opened Wrappers

  lemma PlayedInv(env: Env, n: nat, claim: Claim)
    requires MapOrders(env)
    ensures IterationOrder(WorldOf(env, n, claim))
    ensures StreamInv(WorldOf(env, n, claim), Played(env, n, claim).0)
  {
    hide Refusal, Observe;
    var w := WorldOf(env, n, claim);
    NewStreamInv(w);
    assert IterationOrder(w);
    ObserveAllKeeps(w, NEW_STREAM, env.callbacks(n));
  }

  /** Every verdict of a Turn is sound for the stream it was reached on. */
  lemma AttemptedIsSound(env: Env, n: nat, claim: Claim)
    requires MapOrders(env)
    ensures var (s, result) := Played(env, n, claim);
            Sound(WorldOf(env, n, claim), s, result, Attempted(env, n, claim))
  {
    hide Played, StreamInv, Conclude, Sound, IterationOrder;
    PlayedInv(env, n, claim);
    var (s, result) := Played(env, n, claim);
    ConcludeIsSound(WorldOf(env, n, claim), s, result, env.cancelled(n));
  }

  lemma {:induction false} ChosenIsFresh(env: Env, n: nat, claim: Claim, targets: seq<Target>, tried: set<Key>, i: nat)
    requires FaithfulStore(env) && i <= |targets| && Choose(env, n, claim, targets, tried, i).Some?
    ensures var next := Choose(env, n, claim, targets, tried, i).value;
            && next.turn == claim.turn && RouteKey(next.target) !in tried
            && exists t :: t in targets && t.automatic && RouteKey(next.target) == RouteKey(t)
    decreases |targets| - i
  {
    hide RouteKey;
    if Eligible(env, n, tried, targets[i]) && env.begin(n, i, claim, targets[i]).Some? {
      assert targets[i] in targets;
    } else {
      ChosenIsFresh(env, n, claim, targets, tried, i + 1);
    }
  }

  /** The n-th attempt of a report, counted from attempt `n`, did not end the Turn. */
  ghost predicate WentOn(env: Env, n: nat, r: Report, i: nat)
    requires i < |r.attempts| && i < |r.verdicts|
  {
    !Final(env, n + i, r.attempts[i], r.verdicts[i])
  }

  ghost predicate Shape(env: Env, n: nat, claim: Claim, tried: set<Key>, r: Report)
    requires MapOrders(env)
  {
    && |r.attempts| == |r.verdicts| <= ATTEMPT_BUDGET - n
    && (|r.attempts| > 0 ==> r.attempts[0] == claim)
    && (|r.attempts| == 0 ==> r.abandoned == Some(claim))
    && (forall i :: 0 <= i < |r.attempts| ==>
          && r.verdicts[i] == Attempted(env, n + i, r.attempts[i])
          && r.attempts[i].turn == claim.turn
          && RouteKey(r.attempts[i].target) !in tried)
    && (forall i, j :: 0 <= i < j < |r.attempts| ==> RouteKey(r.attempts[i].target) != RouteKey(r.attempts[j].target))
    && (forall i :: 0 <= i < |r.attempts| && (i + 1 < |r.attempts| || r.abandoned.Some?) ==> WentOn(env, n, r, i))
    && (|r.finishes| == 1 && r.finishes[0].0 == claim.turn)
    && (r.abandoned.None? ==>
          r.finishes[0].1 == Failed || r.finishes[0].1 == r.verdicts[|r.verdicts| - 1].outcome)
    && (r.abandoned.Some? ==> |r.attempts| == ATTEMPT_BUDGET - n && r.finishes[0].1 == Failed)
  }

  lemma PrefixedShape(env: Env, n: nat, claim: Claim, tried: set<Key>, next: Claim, rest: Report)
    requires MapOrders(env) && n < ATTEMPT_BUDGET && RouteKey(claim.target) !in tried
    requires next.turn == claim.turn
    requires Shape(env, n + 1, next, tried + {RouteKey(claim.target)}, rest)
    requires !Final(env, n, claim, Attempted(env, n, claim))
    ensures Shape(env, n, claim, tried, Prefixed([claim], [Attempted(env, n, claim)], rest))
  {
    hide RouteKey, Attempted, Final, MapOrders;
    var r := Prefixed([claim], [Attempted(env, n, claim)], rest);
    forall i | 0 <= i < |r.attempts|
      ensures r.verdicts[i] == Attempted(env, n + i, r.attempts[i])
    {
      if i > 0 {
        assert r.attempts[i] == rest.attempts[i - 1] && r.verdicts[i] == rest.verdicts[i - 1];
        assert rest.verdicts[i - 1] == Attempted(env, n + 1 + (i - 1), rest.attempts[i - 1]);
      }
    }
    forall i | 0 <= i < |r.attempts| && (i + 1 < |r.attempts| || r.abandoned.Some?) ensures WentOn(env, n, r, i) {
      if i > 0 {
        assert r.attempts[i] == rest.attempts[i - 1] && r.verdicts[i] == rest.verdicts[i - 1];
        assert WentOn(env, n + 1, rest, i - 1);
      }
    }
  }

  lemma {:induction false} RunShape(env: Env, n: nat, claim: Claim, tried: set<Key>)
    requires MapOrders(env) && FaithfulStore(env) && n <= ATTEMPT_BUDGET && RouteKey(claim.target) !in tried
    ensures Shape(env, n, claim, tried, Run(env, n, claim, tried))
    decreases ATTEMPT_BUDGET - n
  {
    hide Attempted, RouteKey, MapOrders, Final, FaithfulStore;
    if n < ATTEMPT_BUDGET {
      var v, seen := Attempted(env, n, claim), tried + {RouteKey(claim.target)};
      var decision := Decide(env, n, claim, v, seen);
      if decision.Continue? {
        ChosenIsFresh(env, n, claim, env.fallback(n).value, seen, 0);
        RunShape(env, n + 1, decision.next, seen);
        PrefixedShape(env, n, claim, tried, decision.next, Run(env, n + 1, decision.next, seen));
      }
    }
  }

  /** An attempt that may be followed by another: nothing it recorded or was
      denied could have had an effect. */
  ghost predicate Harmless(env: Env, n: nat, claim: Claim)
    requires MapOrders(env)
  {
    var w, v := WorldOf(env, n, claim), Attempted(env, n, claim);
    var log := v.stream.progress.log;
    && !v.stream.rejected && CompletedLast(log) && CompletedOnce(log) && PairedBeforeCompleted(log)
    && !RiskRecorded(w, log)
    && Retryable(v.failure) && v.outcome != Succeeded && v.outcome != Waiting && v.outcome != Cancelled
    && claim.automation == "" && claim.waitRevision == 0
  }

  /** One Turn: at most eight attempts on pairwise different routes, exactly one
      FinishTurn, and another attempt begins only after a harmless one. */
  lemma FallbackSafety(env: Env, first: Claim)
    requires MapOrders(env) && FaithfulStore(env)
    ensures var r := Run(env, 0, first, {});
            && |r.attempts| == |r.verdicts| <= ATTEMPT_BUDGET
            && (forall i, j :: 0 <= i < j < |r.attempts| ==>
                  RouteKey(r.attempts[i].target) != RouteKey(r.attempts[j].target))
            && |r.finishes| == 1 && r.finishes[0].0 == first.turn
            && (forall i :: 0 <= i < |r.attempts| ==> r.verdicts[i] == Attempted(env, i, r.attempts[i]))
            && (forall i :: 0 <= i < |r.attempts| && (i + 1 < |r.attempts| || r.abandoned.Some?) ==>
                  Harmless(env, i, r.attempts[i]))
  {
    hide Attempted, RouteKey, MapOrders, FaithfulStore, RiskRecorded, CompletedOnce, PairedBeforeCompleted, Played, Run;
    RunShape(env, 0, first, {});
    var r := Run(env, 0, first, {});
    forall i | 0 <= i < |r.attempts| && (i + 1 < |r.attempts| || r.abandoned.Some?)
      ensures Harmless(env, i, r.attempts[i])
    {
      assert WentOn(env, 0, r, i);
      AttemptedIsSound(env, i, r.attempts[i]);
    }
  }

  /** A Turn is finished as succeeded only if its last attempt recorded a
      successful end, the engine returned no error and no callback was rejected. */
  lemma SuccessIsRecorded(env: Env, first: Claim)
    requires MapOrders(env) && FaithfulStore(env)
    ensures var r := Run(env, 0, first, {});
            |r.finishes| == 1 && (r.finishes[0].1 == Succeeded ==>
              && r.attempts != []
              && var n := |r.attempts| - 1;
                 var (s, result) := Played(env, n, r.attempts[n]);
                 !s.rejected && result.None? && CompletedLast(s.progress.log) &&
                 s.progress.log[|s.progress.log| - 1].event.outcome == Succeeded)
  {
    hide Attempted, RouteKey, MapOrders, FaithfulStore, RiskRecorded, CompletedOnce, PairedBeforeCompleted, Played, Run;
    RunShape(env, 0, first, {});
    var r := Run(env, 0, first, {});
    if r.finishes[0].1 == Succeeded {
      AttemptedIsSound(env, |r.attempts| - 1, r.attempts[|r.attempts| - 1]);
    }
  }

  /** The ninth claim: when the routes still open number fewer than the attempts
      left, the budget never runs out with a claim begun and not executed. */
  lemma {:induction false} BudgetSuffices(env: Env, n: nat, claim: Claim, tried: set<Key>, approved: set<Key>)
    requires MapOrders(env) && FaithfulStore(env) && n <= ATTEMPT_BUDGET
    requires forall m: nat, t :: env.fallback(m).Some? && t in env.fallback(m).value ==> RouteKey(t) in approved
    requires |approved - tried - {RouteKey(claim.target)}| <= ATTEMPT_BUDGET - 1 - n
    ensures Run(env, n, claim, tried).abandoned.None?
    decreases ATTEMPT_BUDGET - n
  {
    hide Attempted, RouteKey, Final, MapOrders, FaithfulStore;
    if n < ATTEMPT_BUDGET {
      var v, seen := Attempted(env, n, claim), tried + {RouteKey(claim.target)};
      var decision := Decide(env, n, claim, v, seen);
      if decision.Continue? {
        ChosenIsFresh(env, n, claim, env.fallback(n).value, seen, 0);
        OneRouteLess(approved, tried, RouteKey(claim.target), RouteKey(decision.next.target));
        BudgetSuffices(env, n + 1, decision.next, seen, approved);
      }
    }
  }

  lemma OneRouteLess(approved: set<Key>, tried: set<Key>, now: Key, next: Key)
    requires next in approved && next !in tried + {now}
    ensures |approved - (tried + {now}) - {next}| == |approved - tried - {now}| - 1
  {
    var left := approved - tried - {now};
    assert left == approved - (tried + {now});
    assert left == (left - {next}) + {next};
  }

  /** apps/hub/sqlite/store.go:382 admits seven fallback targets: with one list
      of at most seven throughout the Turn, no begun claim is left unexecuted. */
  lemma SevenFallbacksSuffice(env: Env, first: Claim, targets: seq<Target>)
    requires MapOrders(env) && FaithfulStore(env) && |targets| <= 7
    requires forall m: nat :: env.fallback(m).Some? ==> env.fallback(m).value == targets
    ensures Run(env, 0, first, {}).abandoned.None?
  {
    hide RouteKey;
    var approved := set t | t in targets :: RouteKey(t);
    KeysAtMost(targets);
    assert approved - {} - {RouteKey(first.target)} <= approved;
    SmallerSet(approved - {} - {RouteKey(first.target)}, approved);
    BudgetSuffices(env, 0, first, {}, approved);
  }

  lemma SmallerSet<T>(a: set<T>, b: set<T>)
    requires a <= b
    ensures |a| <= |b|
  {
    assert b == a + (b - a);
  }

  lemma {:induction false} KeysAtMost(targets: seq<Target>)
    ensures |set t | t in targets :: RouteKey(t)| <= |targets|
  {
    hide RouteKey;
    if targets != [] {
      KeysAtMost(targets[1..]);
      var rest := set t | t in targets[1..] :: RouteKey(t);
      assert targets == [targets[0]] + targets[1..];
      assert (set t | t in targets :: RouteKey(t)) == rest + {RouteKey(targets[0])};
    }
  }
}
