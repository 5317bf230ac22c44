/** What the callers of `act` are told, apps/debug/server.go:237-309, whoever
    else asks, cancels, detaches or closes meanwhile. */
module DebugAnswers {
  import opened DebugView
  import opened DebugServer
  import opened Wrappers

  /** What a call returns; `Pending` when its own context ends first. */
  datatype Reply = Told(answer: Answer) | Pending | WrongRequest | Denied(why: Refusal)

  /** The return of a call that was given `v` and looks at the outcome in `later`. */
  function ReplyOf(v: Verdict, op: string, later: Server): Reply {
    match v
    case Mismatch => WrongRequest
    case Refused(why) => Denied(why)
    case _ =>
      if op in later.operations && later.operations[op].answer.Some? then Told(later.operations[op].answer.value) else Pending
  }

  /** A call of `act` with `a`, whose locked part is the step from `i`, returning at `j`. */
  ghost predicate Calls(ss: seq<Server>, i: nat, j: nat, a: Action) {
    Execution(ss) && i < j < |ss| && ss[i + 1] == After(ss[i], Arrive(a))
  }

  function ReplyAt(ss: seq<Server>, i: nat, j: nat, a: Action): Reply
    requires i < j < |ss|
  {
    ReplyOf(Look(ss[i], a), a.op, ss[j])
  }

  lemma CalledStates(ss: seq<Server>, i: nat, j: nat, a: Action)
    requires Calls(ss, i, j, a)
    ensures Inv(ss[j]) && Stays(ss[i + 1], ss[j]) && ss[i + 1] == Admit(ss[i], a) && i < j < |ss|
  {
    hide Inv, Stays;
    ReachableInv(ss);
    RunStays(ss, i + 1, j);
  }

  lemma AnswersOwn(s: Server, op: string)
    requires Inv(s) && op in s.operations && s.operations[op].answer.Some?
    ensures var o := s.operations[op];
      && o.answer.value.op == op
      && (o.answer.value.status == AppliedStatus <==>
            exists k :: 0 <= k < |s.tickets| && s.tickets[k].work == Act(o.action) && Succeeded(s.tickets[k]))
  {
    hide Succeeded, TicketInv;
    InvMeansAtMostOnce(s, op);
    assert OperationInv(s, op);
  }

  /** An operation ID belongs to the request it was first recorded for: a call is
      told of another request exactly when a different action is recorded under
      its ID; and it is told a settled answer exactly when its own action is
      recorded and answered, the answer being that operation's, "applied" only
      if that action was applied. */
  lemma CallersAreTold(ss: seq<Server>, i: nat, j: nat, a: Action)
    requires Calls(ss, i, j, a)
    ensures var told := ReplyAt(ss, i, j, a);
      && (told == WrongRequest <==> a.op in ss[i].operations && ss[i].operations[a.op].action != a)
      && (told.Told? <==> a.op in ss[i + 1].operations && a.op in ss[j].operations
                          && ss[j].operations[a.op].action == a && ss[j].operations[a.op].answer.Some?)
      && (told.Told? ==>
            && told.answer == ss[j].operations[a.op].answer.value && told.answer.op == a.op
            && (told.answer.status == AppliedStatus <==>
                  exists k :: 0 <= k < |ss[j].tickets| && ss[j].tickets[k].work == Act(a) && Succeeded(ss[j].tickets[k])))
  {
    CalledStates(ss, i, j, a);
    hide Calls, Enabled, Inv, Succeeded, Execution, After;
    if a.op in ss[j].operations && ss[j].operations[a.op].answer.Some? { AnswersOwn(ss[j], a.op); }
  }

  /** Two calls under one ID that are both told an answer made the same request,
      and are told the same. */
  lemma OneRequestPerID(ss: seq<Server>, i: nat, j: nat, a: Action, k: nat, l: nat, b: Action)
    requires Calls(ss, i, j, a) && Calls(ss, k, l, b) && a.op == b.op && j <= l
    requires ReplyAt(ss, i, j, a).Told? && ReplyAt(ss, k, l, b).Told?
    ensures a == b && ReplyAt(ss, i, j, a) == ReplyAt(ss, k, l, b)
  {
    hide CanStep, After, Succeeded, Look, ReplyOf;
    CallersAreTold(ss, i, j, a);
    CallersAreTold(ss, k, l, b);
    RunStays(ss, j, l);
  }

  /** When a request is admitted, and why not otherwise, in this order: the ID is
      recorded already; the server is closing, or the view is not registered or
      was detached; the switches do not allow the first method declared with the
      name, or none is; 256 operations are recorded. An admission adds exactly
      this operation, for the owner of the view. */
  lemma AdmittedExactly(s: Server, a: Action)
    ensures var v := Look(s, a);
      var here := !s.closed && a.view in s.views && s.views[a.view].owner !in s.detached;
      var allowed := here && s.controls && exists i :: Declares(s.views[a.view].methods, a.name, i, s.execution);
      && (v.New? <==> a.op !in s.operations && here && allowed && |s.operations| < 256)
      && (v == Refused(IsUnavailable) <==> a.op !in s.operations && !here)
      && (v == Refused(NotEnabled) <==> a.op !in s.operations && here && !allowed)
      && (v == Refused(BudgetExhausted) <==> a.op !in s.operations && here && allowed && |s.operations| >= 256)
      && Admit(s, a) == (if v.New? then s.(operations := s.operations[a.op := Operation(a, s.views[a.view].owner, None, None)])
                         else s)
  {
    hide Enabled, Declares;
    if a.view in s.views { EnabledMeans(s, s.views[a.view], a.name); }
  }

  /** An admitted action is queued exactly when its view is not detached, the
      caller's context lives, and every earlier request of the view has left;
      otherwise it is answered at once, and not as applied. */
  lemma QueuedExactly(ss: seq<Server>, op: string, expired: bool)
    requires Execution(ss) && CanStep(ss[|ss| - 1], Schedule(op, expired))
    ensures var s := ss[|ss| - 1];
      var o := s.operations[op];
      var o' := After(s, Schedule(op, expired)).operations[op];
      && (o'.ticket.Some? <==>
            && o.owner !in s.detached && !expired
            && forall k :: 0 <= k < |s.tickets| && s.tickets[k].view == o.owner ==> s.tickets[k].ui == Left)
      && (o'.ticket.None? ==>
            && o'.answer.Some? && o'.answer.value.status != AppliedStatus
            && (o'.answer.value.status == CancelledStatus <==> o.owner !in s.detached && expired))
      && (o'.ticket.Some? ==>
            && o'.ticket.value == |s.tickets| && o'.answer.None?
            && After(s, Schedule(op, expired)).tickets == s.tickets + [NewTicket(o.owner, Act(o.action))])
  {
    ReachableInv(ss);
    hide Execution, TicketInv;
    GateMeans(ss[|ss| - 1], ss[|ss| - 1].operations[op].owner);
  }

  lemma GateMeans(s: Server, owner: nat)
    requires Inv(s)
    ensures owner in s.gates <==> exists k :: 0 <= k < |s.tickets| && s.tickets[k].view == owner && s.tickets[k].ui != Left
  {
    hide TicketInv;
    if owner in s.gates { assert s.tickets[s.gates[owner]].view == owner; }
  }

  /** A settled answer says "cancelled" exactly when the request's context had
      ended, or the callback itself said so, and "applied" exactly when it applied. */
  lemma SettledAs(s: Server, op: string)
    requires Inv(s) && CanStep(s, Settle(op))
    ensures var r := s.tickets[s.operations[op].ticket.value].sent[0];
      var answer := After(s, Settle(op)).operations[op].answer;
      && answer.Some? && answer.value.op == op
      && (answer.value.status == AppliedStatus <==> r.Applied?)
      && (answer.value.status == CancelledStatus <==> r == Failed(ContextDone) || r == Failed(ApplyFailed(true)))
      && (r.Applied? && r.after.Some? ==> answer.value.revision == r.after.value && answer.value.complete)
  {
    assert OperationInv(s, op);
    assert TicketInv(s.tickets[s.operations[op].ticket.value]);
  }
}
