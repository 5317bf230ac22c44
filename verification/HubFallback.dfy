/** `executeClaim` of apps/hub/runtime.go: one Turn as up to eight attempts. */
module HubFallback {
  import opened Order
  import opened EngineContract
  import opened HubAttempt
  import opened Wrappers

  const ATTEMPT_BUDGET := 8

  datatype Target = Target(
    engine: string, model: string, provider: string, account: string, billing: string,
    automatic: bool, required: seq<string>)

  datatype Claim = Claim(turn: string, automation: string, target: Target, native: string, waitRevision: nat)

  /** The value that `RouteKey` encodes; the JSON encoding is injective on it. */
  datatype Key = Key(
    engine: string, model: string, provider: string, account: string, billing: string, required: seq<string>)

  function RouteKey(t: Target): Key {
    Key(t.engine, t.model, t.provider, t.account, t.billing, Sort(t.required))
  }

  /** Two targets are the same route exactly when they agree up to the order of
      required capabilities and the automatic flag. */
  lemma SameRoute(a: Target, b: Target)
    ensures RouteKey(a) == RouteKey(b) <==>
            a.engine == b.engine && a.model == b.model && a.provider == b.provider &&
            a.account == b.account && a.billing == b.billing && multiset(a.required) == multiset(b.required)
  {
    SortSorted(a.required);
    SortSorted(b.required);
    if multiset(a.required) == multiset(b.required) { SortedUnique(Sort(a.required), Sort(b.required)); }
  }

  /** Everything outside the supervisor, by attempt number. */
  datatype Env = Env(
    engine: (nat, string) -> Option<Capabilities>,
    waits: bool,
    record: (nat, nat) -> bool,
    pick: (nat, nat, set<string>) -> string,
    admission: nat -> Option<Err>,
    handoff: nat -> Option<Err>,
    callbacks: nat -> seq<Event>,
    result: nat -> Option<Err>,
    cancelled: nat -> bool,                       // ctx.Err() when the attempt concludes
    cancelledAfter: nat -> bool,                  // ctx.Err() after the attempt
    fallback: nat -> Option<seq<Target>>,         // store.Detail
    begin: (nat, nat, Claim, Target) -> Option<Claim>) // store.BeginFallback, for the i-th candidate

  function WorldOf(env: Env, n: nat, claim: Claim): World {
    World(env.engine(n, claim.target.engine), env.waits,
          (k: nat) => env.record(n, k), (k: nat, s: set<string>) => env.pick(n, k, s))
  }

  ghost predicate MapOrders(env: Env) {
    forall n: nat, claim :: IterationOrder(WorldOf(env, n, claim))
  }

  /** apps/hub/sqlite/store.go:620-677: a fallback claim is for the same Turn and
      for an approved target with the requested route. */
  ghost predicate FaithfulStore(env: Env) {
    forall n: nat, i: nat, claim, target :: env.begin(n, i, claim, target).Some? ==>
      var next := env.begin(n, i, claim, target).value;
      next.turn == claim.turn && RouteKey(next.target) == RouteKey(target)
  }

  /** The guards of lines 410-421: an engine that must not be started at all. */
  function Refusal(w: World, claim: Claim): Option<(Err, Failure)> {
    if claim.waitRevision != 0 && w.target.Some? && !w.target.value.durableWaits then Some((UNSUPPORTED, Execution))
    else if w.target.None? then Some((Plain("requested engine is not registered"), Startup))
    else if !Supports(w.target.value, claim.target.required) then Some((UNSUPPORTED, Startup))
    else if claim.native != "" && !w.target.value.resume then Some((UNSUPPORTED, Execution))
    else None
  }

  /** The stream and the error an attempt comes to its end with. */
  ghost function Played(env: Env, n: nat, claim: Claim): (Stream, Option<Err>)
    requires MapOrders(env)
  {
    var w := WorldOf(env, n, claim);
    var refusal := Refusal(w, claim);
    if refusal.Some? then
      (NEW_STREAM.(progress := NEW_PROGRESS.(failure := refusal.value.1)), Some(refusal.value.0))
    else if env.admission(n).Some? then (NEW_STREAM, env.admission(n))
    else if env.handoff(n).Some? then (NEW_STREAM, env.handoff(n))
    else (ObserveAll(w, NEW_STREAM, env.callbacks(n)), env.result(n))
  }

  ghost function Attempted(env: Env, n: nat, claim: Claim): Verdict
    requires MapOrders(env)
  {
    var (s, result) := Played(env, n, claim);
    Conclude(WorldOf(env, n, claim), s, result, env.cancelled(n))
  }

  predicate Retryable(f: Failure) {
    f == Startup || f == RateLimit
  }

  predicate Final(env: Env, n: nat, claim: Claim, v: Verdict) {
    || v.outcome == Succeeded || v.outcome == Waiting || v.outcome == Cancelled
    || env.cancelledAfter(n) || claim.waitRevision != 0
    || claim.automation != "" || v.sideEffects || !Retryable(v.failure)
  }

  predicate Eligible(env: Env, n: nat, tried: set<Key>, target: Target) {
    target.automatic && RouteKey(target) !in tried &&
    env.engine(n, target.engine).Some? && Supports(env.engine(n, target.engine).value, target.required)
  }

  /** The first eligible candidate, from the i-th on, that the store begins. */
  function Choose(env: Env, n: nat, claim: Claim, targets: seq<Target>, tried: set<Key>, i: nat): Option<Claim>
    requires i <= |targets|
    decreases |targets| - i
  {
    if i == |targets| then None
    else if Eligible(env, n, tried, targets[i]) && env.begin(n, i, claim, targets[i]).Some?
    then env.begin(n, i, claim, targets[i])
    else Choose(env, n, claim, targets, tried, i + 1)
  }

  datatype Decision = Stop(outcome: Outcome) | Continue(next: Claim)

  /** What follows an attempt. */
  function Decide(env: Env, n: nat, claim: Claim, v: Verdict, tried: set<Key>): Decision {
    if Final(env, n, claim, v) then Stop(v.outcome)
    else if env.fallback(n).None? then Stop(Failed)
    else
      var next := Choose(env, n, claim, env.fallback(n).value, tried, 0);
      if next.None? then Stop(v.outcome) else Continue(next.value)
  }

  /** The attempts executed, their verdicts, the FinishTurn calls, and a claim
      that was begun when the budget ran out. */
  datatype Report = Report(
    attempts: seq<Claim>, verdicts: seq<Verdict>, finishes: seq<(string, Outcome)>, abandoned: Option<Claim>)

  ghost function Run(env: Env, n: nat, claim: Claim, tried: set<Key>): Report
    requires MapOrders(env) && n <= ATTEMPT_BUDGET
    decreases ATTEMPT_BUDGET - n
  {
    if n == ATTEMPT_BUDGET then Report([], [], [(claim.turn, Failed)], Some(claim))
    else
      var v, seen := Attempted(env, n, claim), tried + {RouteKey(claim.target)};
      match Decide(env, n, claim, v, seen)
      case Stop(outcome) => Report([claim], [v], [(claim.turn, outcome)], None)
      case Continue(next) => Prefixed([claim], [v], Run(env, n + 1, next, seen))
  }

  function Prefixed(attempts: seq<Claim>, verdicts: seq<Verdict>, rest: Report): Report {
    Report(attempts + rest.attempts, verdicts + rest.verdicts, rest.finishes, rest.abandoned)
  }

  lemma PrefixedTwice(a: seq<Claim>, b: seq<Verdict>, c: seq<Claim>, d: seq<Verdict>, rest: Report)
    ensures Prefixed(a, b, Prefixed(c, d, rest)) == Prefixed(a + c, b + d, rest)
  {
  }

  // ------------------------------------------------------------- supervisor

  class Supervisor {
    const env: Env
    var attempts: seq<Claim>
    var verdicts: seq<Verdict>
    var finishes: seq<(string, Outcome)>
    var abandoned: Option<Claim>

    function Result(): Report
      reads this
    {
      Report(attempts, verdicts, finishes, abandoned)
    }

    constructor (env: Env)
      ensures this.env == env && Result() == Report([], [], [], None)
    {
      this.env := env;
      attempts, verdicts, finishes, abandoned := [], [], [], None;
    }

    /** `attempt`: the guards, the callbacks while Execute runs, the verdict. */
    method Attempt(n: nat, claim: Claim) returns (v: Verdict)
      requires MapOrders(env)
      ensures v == Attempted(env, n, claim)
    {
      hide Conclude, Observe, IterationOrder;
      var w := WorldOf(env, n, claim);
      var stream := new AttemptStream(w);
      var refusal := Refusal(w, claim);
      var result;
      if refusal.Some? {
        result := Some(refusal.value.0);
        stream.failure := refusal.value.1;
      } else if env.admission(n).Some? {
        result := env.admission(n);
      } else if env.handoff(n).Some? {
        result := env.handoff(n);
      } else {
        var events := env.callbacks(n);
        for i := 0 to |events|
          invariant ObserveAll(w, stream.State(), events[i..]) == ObserveAll(w, NEW_STREAM, events)
        {
          var ok := stream.ObserveEvent(events[i]);
          assert events[i..][1..] == events[i + 1..];
        }
        assert events[|events|..] == [];
        result := env.result(n);
      }
      v := stream.Finish(result, env.cancelled(n));
    }

    method ChooseNext(n: nat, claim: Claim, targets: seq<Target>, tried: set<Key>) returns (next: Option<Claim>)
      ensures next == Choose(env, n, claim, targets, tried, 0)
    {
      for i := 0 to |targets|
        invariant Choose(env, n, claim, targets, tried, 0) == Choose(env, n, claim, targets, tried, i)
      {
        if !targets[i].automatic || RouteKey(targets[i]) in tried { continue; }
        var runtime := env.engine(n, targets[i].engine);
        if runtime.None? { continue; }
        var supported := SupportsLoop(runtime.value, targets[i].required);
        if !supported { continue; }
        var candidate := env.begin(n, i, claim, targets[i]);
        if candidate.None? { continue; }
        return candidate;
      }
      return None;
    }

    method FinishTurn(turn: string, outcome: Outcome)
      modifies this`finishes
      ensures finishes == old(finishes) + [(turn, outcome)]
    {
      finishes := finishes + [(turn, outcome)];
    }

    /** Lines 248-279: finish the Turn, or go on with another claim. */
    method Settle(n: nat, claim: Claim, v: Verdict, tried: set<Key>) returns (next: Option<Claim>)
      modifies this`finishes
      ensures match Decide(env, n, claim, v, tried)
              case Stop(outcome) => next.None? && finishes == old(finishes) + [(claim.turn, outcome)]
              case Continue(c) => next == Some(c) && finishes == old(finishes)
    {
      hide Choose;
      if v.outcome == Succeeded || v.outcome == Waiting || v.outcome == Cancelled
         || env.cancelledAfter(n) || claim.waitRevision != 0 {
        FinishTurn(claim.turn, v.outcome);
        return None;
      }
      if claim.automation != "" || v.sideEffects || !Retryable(v.failure) {
        FinishTurn(claim.turn, v.outcome);
        return None;
      }
      var detail := env.fallback(n);
      if detail.None? {
        FinishTurn(claim.turn, Failed);
        return None;
      }
      next := ChooseNext(n, claim, detail.value, tried);
      if next.None? { FinishTurn(claim.turn, v.outcome); }
    }

    method ExecuteClaim(first: Claim)
      requires MapOrders(env) && Result() == Report([], [], [], None)
      modifies this
      ensures Result() == Run(env, 0, first, {})
    {
      hide Attempted, MapOrders, Decide, RouteKey;
      var claim, tried: set<Key> := first, {};
      for n := 0 to ATTEMPT_BUDGET
        invariant finishes == [] && abandoned.None?
        invariant Prefixed(attempts, verdicts, Run(env, n, claim, tried)) == Run(env, 0, first, {})
      {
        ghost var before, done := attempts, verdicts;
        tried := tried + {RouteKey(claim.target)};
        var v := Attempt(n, claim);
        var next := Settle(n, claim, v, tried);
        attempts, verdicts := attempts + [claim], verdicts + [v];
        if next.None? { return; }
        PrefixedTwice(before, done, [claim], [v], Run(env, n + 1, next.value, tried));
        claim := next.value;
      }
      abandoned := Some(claim);
      FinishTurn(claim.turn, Failed);
    }
  }
}
