/** The operation table of apps/debug/server.go above the scheduled requests of
    its views. SHA-256 of the encoded action is treated as injective, so an
    operation's fingerprint is the action itself. */
module DebugServer {
  import opened DebugView
  import opened Wrappers

  const OPERATION_BUDGET := 256

  datatype Effect = UiEffect | StopEffect | ExecuteEffect

  datatype Method = Method(name: string, effect: Effect)

  /** A registered view: `owner` is the identity of the View object. */
  datatype Registration = Registration(owner: nat, methods: seq<Method>)

  datatype Status = AppliedStatus | RejectedStatus | CancelledStatus

  /** `ActionResult` once it is not pending. */
  datatype Answer = Answer(op: string, status: Status, revision: string, complete: bool, cause: Option<Cause>)

  datatype Operation = Operation(action: Action, owner: nat, ticket: Option<nat>, answer: Option<Answer>)

  datatype Server = Server(
    controls: bool, execution: bool, closed: bool,
    views: map<string, Registration>, detached: set<nat>,
    gates: map<nat, nat>,          // the request holding each View's gate
    tickets: seq<Ticket>,
    operations: map<string, Operation>)

  function Fresh(controls: bool, execution: bool): Server {
    Server(controls, execution, false, map[], {}, map[], [], map[])
  }

  // ------------------------------------------------------------ `Server.act`

  datatype Verdict =
    | Known                 // wait for the recorded operation
    | Mismatch              // the ID belongs to another request
    | Refused(why: Refusal)
    | New(owner: nat)

  datatype Refusal = IsUnavailable | NotEnabled | BudgetExhausted

  function Declared(methods: seq<Method>, name: string): Option<Effect> {
    if methods == [] then None
    else if methods[0].name == name then Some(methods[0].effect)
    else Declared(methods[1..], name)
  }

  predicate Enabled(s: Server, r: Registration, name: string) {
    var effect := Declared(r.methods, name);
    effect.Some? && s.controls && (effect.value != ExecuteEffect || s.execution)
  }

  /** The `i`-th method is the first one declared with this name, and may be
      called as far as the switch for execution goes. */
  predicate Declares(methods: seq<Method>, name: string, i: int, execution: bool) {
    && 0 <= i < |methods| && methods[i].name == name && (forall j :: 0 <= j < i ==> methods[j].name != name)
    && (methods[i].effect == ExecuteEffect ==> execution)
  }

  lemma {:induction false} DeclaredAt(methods: seq<Method>, name: string)
    ensures match Declared(methods, name)
            case None => forall i :: 0 <= i < |methods| ==> methods[i].name != name
            case Some(effect) => exists i :: 0 <= i < |methods| && methods[i] == Method(name, effect)
                                             && forall j :: 0 <= j < i ==> methods[j].name != name
  {
    if methods != [] && methods[0].name != name {
      DeclaredAt(methods[1..], name);
      if Declared(methods, name).Some? {
        var i :| 0 <= i < |methods[1..]| && methods[1..][i] == Method(name, Declared(methods, name).value)
                 && forall j :: 0 <= j < i ==> methods[1..][j].name != name;
        assert methods[i + 1] == methods[1..][i];
        assert forall j :: 1 <= j < i + 1 ==> methods[j] == methods[1..][j - 1];
      } else {
        assert forall j :: 1 <= j < |methods| ==> methods[j] == methods[1..][j - 1];
      }
    }
  }

  lemma EnabledMeans(s: Server, r: Registration, name: string)
    ensures Enabled(s, r, name) <==> s.controls && exists i :: Declares(r.methods, name, i, s.execution)
  {
    DeclaredAt(r.methods, name);
    if Declared(r.methods, name).Some? {
      var i :| 0 <= i < |r.methods| && r.methods[i] == Method(name, Declared(r.methods, name).value)
               && forall j :: 0 <= j < i ==> r.methods[j].name != name;
      if k :| Declares(r.methods, name, k, s.execution) { assert k == i; }
      if Enabled(s, r, name) { assert Declares(r.methods, name, i, s.execution); }
    }
  }

  lemma EnabledMeansAt(s: Server, a: Action)
    ensures a.view in s.views ==>
      (Enabled(s, s.views[a.view], a.name) <==>
         s.controls && exists i :: Declares(s.views[a.view].methods, a.name, i, s.execution))
  {
    hide Enabled, Declares;
    if a.view in s.views { EnabledMeans(s, s.views[a.view], a.name); }
  }

  /** Lines 243-283: the locked look at an action that passed validation. */
  function Look(s: Server, a: Action): Verdict {
    if a.op in s.operations then
      if s.operations[a.op].action == a then Known else Mismatch
    else if s.closed then Refused(IsUnavailable)
    else if a.view !in s.views || s.views[a.view].owner in s.detached then Refused(IsUnavailable)
    else if !Enabled(s, s.views[a.view], a.name) then Refused(NotEnabled)
    else if |s.operations| >= OPERATION_BUDGET then Refused(BudgetExhausted)
    else New(s.views[a.view].owner)
  }

  function Admit(s: Server, a: Action): Server {
    var v := Look(s, a);
    if v.New? then s.(operations := s.operations[a.op := Operation(a, v.owner, None, None)]) else s
  }

  /** `settle`. */
  function AnswerTo(op: string, r: Result): Answer {
    match r
    case Applied(after) =>
      Answer(op, AppliedStatus, if after.Some? then after.value else "", after.Some?, None)
    case Inspected => Answer(op, AppliedStatus, "", true, None)
    case Failed(cause) =>
      Answer(op, if cause == ContextDone || cause == ApplyFailed(true) then CancelledStatus else RejectedStatus,
             "", true, Some(cause))
  }

  /** The checks of `schedule`, in order; `None` means the request was queued. */
  function Obstacle(s: Server, owner: nat, expired: bool): Option<Cause> {
    if owner in s.detached then Some(Unavailable)
    else if expired then Some(ContextDone)
    else if owner in s.gates then Some(Busy)
    else None
  }

  function Enqueue(s: Server, owner: nat, work: Work): Server {
    s.(gates := s.gates[owner := |s.tickets|], tickets := s.tickets + [NewTicket(owner, work)])
  }

  datatype Step =
    | Arrive(action: Action)
    | Schedule(op: string, expired: bool)
    | Read(owner: nat, expired: bool)
    | Move(k: nat, move: DebugView.Move)
    | Settle(op: string)
    | Register(id: string, registration: Registration)
    | Unregister(id: string)
    | Detach(owner: nat)
    | BeginClose

  predicate CanStep(s: Server, step: Step) {
    match step
    case Arrive(_) => true
    case Schedule(op, _) => op in s.operations && s.operations[op].ticket.None? && s.operations[op].answer.None?
    case Read(_, _) => true
    case Move(k, move) =>
      k < |s.tickets| && CanMove(s.tickets[k], move)
      && (move.OwnerFires? ==> s.tickets[k].view in s.detached)
      && (move.UIChecks? ==> (move.detached <==> s.tickets[k].view in s.detached))
    case Settle(op) =>
      op in s.operations && s.operations[op].answer.None? && s.operations[op].ticket.Some?
      && s.operations[op].ticket.value < |s.tickets| && s.tickets[s.operations[op].ticket.value].sent != []
    case Register(id, _) => !s.closed && id !in s.views && |s.views| < 32
    case Unregister(id) => id in s.views
    case Detach(_) => true
    case BeginClose => !s.closed
  }

  function Settled(s: Server, op: string, r: Result): Server
    requires op in s.operations
  {
    s.(operations := s.operations[op := s.operations[op].(answer := Some(AnswerTo(op, r)))])
  }

  function After(s: Server, step: Step): Server
    requires CanStep(s, step)
  {
    match step
    case Arrive(a) => Admit(s, a)
    case Schedule(op, expired) =>
      var o := s.operations[op];
      var obstacle := Obstacle(s, o.owner, expired);
      if obstacle.Some? then Settled(s, op, Failed(obstacle.value))
      else
        Enqueue(s, o.owner, Act(o.action)).(operations := s.operations[op := o.(ticket := Some(|s.tickets|))])
    case Read(owner, expired) =>
      if Obstacle(s, owner, expired).Some? then s else Enqueue(s, owner, Inspect)
    case Move(k, move) =>
      s.(tickets := s.tickets[k := AfterMove(s.tickets[k], move)],
         gates := if move.UILeaves? then s.gates - {s.tickets[k].view} else s.gates)
    case Settle(op) => Settled(s, op, s.tickets[s.operations[op].ticket.value].sent[0])
    case Register(id, r) => s.(views := s.views[id := r])
    case Unregister(id) => s.(views := s.views - {id}, detached := s.detached + {s.views[id].owner})
    case Detach(owner) => s.(detached := s.detached + {owner})
    case BeginClose =>
      s.(closed := true, views := map[], detached := s.detached + set id | id in s.views :: s.views[id].owner)
  }

  // --------------------------------------------------------------- invariant

  /** A View's gate is held by exactly the request whose closure has not left. */
  ghost predicate GateInv(s: Server) {
    && (forall v :: v in s.gates ==> s.gates[v] < |s.tickets| && s.tickets[s.gates[v]].view == v && s.tickets[s.gates[v]].ui != Left)
    && (forall k :: 0 <= k < |s.tickets| && s.tickets[k].ui != Left ==>
          s.tickets[k].view in s.gates && s.gates[s.tickets[k].view] == k)
  }

  ghost predicate OperationInv(s: Server, op: string)
    requires op in s.operations
  {
    var o := s.operations[op];
    && o.action.op == op
    && (o.ticket.Some? ==> o.ticket.value < |s.tickets| && s.tickets[o.ticket.value].work == Act(o.action))
    && (o.answer.Some? ==>
          if o.ticket.Some?
          then s.tickets[o.ticket.value].sent != [] && o.answer.value == AnswerTo(op, s.tickets[o.ticket.value].sent[0])
          else o.answer.value.status != AppliedStatus && o.answer.value.op == op)
  }

  ghost predicate TicketOwned(s: Server, k: nat)
    requires k < |s.tickets|
  {
    s.tickets[k].work.Act? ==>
      var op := s.tickets[k].work.action.op;
      op in s.operations && s.operations[op].ticket == Some(k)
  }

  ghost predicate Inv(s: Server) {
    && (forall k :: 0 <= k < |s.tickets| ==> TicketInv(s.tickets[k]) && TicketOwned(s, k))
    && (forall op :: op in s.operations ==> OperationInv(s, op))
    && GateInv(s)
    && |s.operations| <= OPERATION_BUDGET
  }

  lemma WorkStays(t: Ticket, m: DebugView.Move)
    requires CanMove(t, m)
    ensures var t' := AfterMove(t, m);
            && t'.work == t.work && t'.view == t.view
            && (t'.ui == Left <==> m.UILeaves? || t.ui == Left)
            && t.sent <= t'.sent
            && (t'.applies != t.applies ==> m.UIWorks?)
  {
  }

  lemma EnqueueKeeps(s: Server, owner: nat, work: Work)
    requires Inv(s) && owner !in s.gates
    ensures var s' := Enqueue(s, owner, work);
            GateInv(s') && forall k :: 0 <= k < |s'.tickets| ==> TicketInv(s'.tickets[k])
  {
    hide TicketInv;
    NewTicketInv(owner, work);
  }

  /** One operation's entry changes, and no request. */
  lemma OperationChange(s: Server, s': Server, op: string)
    requires Inv(s) && op in s.operations && op in s'.operations
    requires s' == s.(operations := s.operations[op := s'.operations[op]])
    requires OperationInv(s', op) && s'.operations[op].ticket == s.operations[op].ticket
    ensures Inv(s')
  {
    hide TicketInv;
    forall p | p in s'.operations ensures OperationInv(s', p) { assert p != op ==> OperationInv(s, p); }
    forall k | 0 <= k < |s'.tickets| ensures TicketOwned(s', k) { assert TicketOwned(s, k); }
    assert s'.operations.Keys == s.operations.Keys;
    assert |s'.operations| == |s.operations|;
  }

  lemma ArriveKeeps(s: Server, a: Action)
    requires Inv(s)
    ensures Inv(Admit(s, a))
  {
    hide TicketInv, Enabled;
    var s' := Admit(s, a);
    forall p | p in s'.operations ensures OperationInv(s', p) { assert p in s.operations ==> OperationInv(s, p); }
    forall k | 0 <= k < |s'.tickets| ensures TicketOwned(s', k) { assert TicketOwned(s, k); }
  }

  lemma QueuedOperationKeeps(s: Server, op: string)
    requires Inv(s) && op in s.operations && s.operations[op].ticket.None? && s.operations[op].answer.None?
    requires s.operations[op].owner !in s.gates
    ensures Inv(After(s, Schedule(op, false))) || s.operations[op].owner in s.detached
  {
    hide TicketInv, GateInv;
    var s', o := After(s, Schedule(op, false)), s.operations[op];
    if o.owner !in s.detached {
      assert OperationInv(s, op);
      EnqueueKeeps(s, o.owner, Act(o.action));
      GateDependsOn(Enqueue(s, o.owner, Act(o.action)), s');
      forall p | p in s'.operations ensures OperationInv(s', p) { assert p != op ==> OperationInv(s, p); }
      forall k | 0 <= k < |s'.tickets| ensures TicketOwned(s', k) { assert k < |s.tickets| ==> TicketOwned(s, k); }
      assert s'.operations.Keys == s.operations.Keys;
      assert |s'.operations| == |s.operations|;
    }
  }

  lemma ScheduleKeeps(s: Server, op: string, expired: bool)
    requires Inv(s) && CanStep(s, Schedule(op, expired))
    ensures Inv(After(s, Schedule(op, expired)))
  {
    hide TicketInv, GateInv, TicketOwned;
    assert OperationInv(s, op);
    if Obstacle(s, s.operations[op].owner, expired).Some? {
      OperationChange(s, After(s, Schedule(op, expired)), op);
    } else {
      QueuedOperationKeeps(s, op);
    }
  }

  lemma GateDependsOn(s: Server, s': Server)
    requires GateInv(s) && s'.gates == s.gates && s'.tickets == s.tickets
    ensures GateInv(s')
  {
  }

  lemma ReadKeeps(s: Server, owner: nat, expired: bool)
    requires Inv(s)
    ensures Inv(After(s, Read(owner, expired)))
  {
    hide TicketInv, GateInv;
    var s' := After(s, Read(owner, expired));
    if Obstacle(s, owner, expired).None? {
      EnqueueKeeps(s, owner, Inspect);
      forall p | p in s'.operations ensures OperationInv(s', p) { assert OperationInv(s, p); }
      forall k | 0 <= k < |s'.tickets| ensures TicketOwned(s', k) { assert k < |s.tickets| ==> TicketOwned(s, k); }
    }
  }

  lemma MoveKeepsGates(s: Server, k: nat, move: DebugView.Move)
    requires GateInv(s) && CanStep(s, Move(k, move))
    ensures GateInv(After(s, Move(k, move)))
  {
    hide Perform;
    WorkStays(s.tickets[k], move);
  }

  lemma MoveKeeps(s: Server, k: nat, move: DebugView.Move)
    requires Inv(s) && CanStep(s, Move(k, move))
    ensures Inv(After(s, Move(k, move)))
  {
    hide TicketInv, GateInv, AfterMove, DebugView.CanMove;
    var s' := After(s, Move(k, move));
    MoveKeepsTicket(s.tickets[k], move);
    WorkStays(s.tickets[k], move);
    MoveKeepsGates(s, k, move);
    forall p | p in s'.operations ensures OperationInv(s', p) { assert OperationInv(s, p); }
    forall j | 0 <= j < |s'.tickets| ensures TicketOwned(s', j) { assert TicketOwned(s, j); }
  }

  lemma OthersKeep(s: Server, s': Server)
    requires Inv(s) && s'.tickets == s.tickets && s'.operations == s.operations && s'.gates == s.gates
    ensures Inv(s')
  {
    hide TicketInv;
    forall p | p in s'.operations ensures OperationInv(s', p) { assert OperationInv(s, p); }
    forall k | 0 <= k < |s'.tickets| ensures TicketOwned(s', k) { assert TicketOwned(s, k); }
  }

  lemma StepKeepsInv(s: Server, step: Step)
    requires Inv(s) && CanStep(s, step)
    ensures Inv(After(s, step))
  {
    hide Inv, Admit, Obstacle, Enqueue;
    match step
    case Arrive(a) => ArriveKeeps(s, a);
    case Schedule(op, expired) => ScheduleKeeps(s, op, expired);
    case Read(owner, expired) => ReadKeeps(s, owner, expired);
    case Move(k, move) => MoveKeeps(s, k, move);
    case Settle(op) => SettleKeeps(s, op);
    case _ => OthersKeep(s, After(s, step));
  }

  lemma SettleKeeps(s: Server, op: string)
    requires Inv(s) && CanStep(s, Settle(op))
    ensures Inv(After(s, Settle(op)))
  {
    hide TicketInv, GateInv;
    assert OperationInv(s, op);
    OperationChange(s, After(s, Settle(op)), op);
  }

  ghost predicate Follows(s: Server, s': Server) {
    exists step :: CanStep(s, step) && s' == After(s, step)
  }

  ghost predicate Execution(ss: seq<Server>) {
    |ss| > 0 && (exists c, e :: ss[0] == Fresh(c, e)) &&
    forall i :: 0 <= i < |ss| - 1 ==> Follows(ss[i], ss[i + 1])
  }

  lemma {:induction false} ReachableInv(ss: seq<Server>)
    requires Execution(ss)
    ensures forall i :: 0 <= i < |ss| ==> Inv(ss[i])
  {
    hide Inv, After, CanStep;
    if |ss| == 1 {
      FreshInv(ss[0]);
    } else {
      var n := |ss| - 2;
      var before := ss[..n + 1];
      assert forall i :: 0 <= i < |before| ==> before[i] == ss[i];
      assert before[0] == ss[0];
      ReachableInv(before);
      assert Follows(ss[n], ss[n + 1]);
      var step :| CanStep(ss[n], step) && ss[n + 1] == After(ss[n], step);
      assert Inv(before[n]);
      StepKeepsInv(ss[n], step);
    }
  }

  lemma FreshInv(s: Server)
    requires exists c, e :: s == Fresh(c, e)
    ensures Inv(s)
  {
  }

  // ---------------------------------------------------------- main statements

  /** The operations of a request ID: `apply` ran at most once, at the requested
      revision, and on no other request's behalf; a settled answer says
      "applied" exactly when it ran and succeeded. */
  ghost predicate AtMostOnce(s: Server, op: string)
    requires op in s.operations
  {
    var o := s.operations[op];
    && (forall k :: 0 <= k < |s.tickets| && s.tickets[k].work.Act? && s.tickets[k].work.action.op == op && s.tickets[k].applies != [] ==>
          && o.ticket == Some(k) && |s.tickets[k].applies| == 1
          && s.tickets[k].applies[0].0 == o.action.revision)
    && (o.answer.Some? ==>
          (o.answer.value.status == AppliedStatus <==>
             exists k :: 0 <= k < |s.tickets| && s.tickets[k].work == Act(o.action) && Succeeded(s.tickets[k])))
  }

  predicate Succeeded(t: Ticket) {
    exists i :: 0 <= i < |t.applies| && t.applies[i].1
  }

  lemma InvMeansAtMostOnce(s: Server, op: string)
    requires Inv(s) && op in s.operations
    ensures AtMostOnce(s, op)
  {
    assert OperationInv(s, op);
    var o := s.operations[op];
    forall k | 0 <= k < |s.tickets| && s.tickets[k].work.Act? && s.tickets[k].work.action.op == op
      ensures o.ticket == Some(k)
    {
      assert TicketOwned(s, k);
    }
    if o.ticket.Some? {
      assert TicketInv(s.tickets[o.ticket.value]);
    }
  }

  /** The recorded, non-pending answer that a caller with this request gets. */
  function Answered(s: Server, a: Action): Option<Answer> {
    if a.op in s.operations && s.operations[a.op].action == a then s.operations[a.op].answer else None
  }

  ghost predicate Stays(s: Server, s': Server) {
    forall op :: op in s.operations ==>
      op in s'.operations && s'.operations[op].action == s.operations[op].action &&
      (s.operations[op].answer.Some? ==> s'.operations[op].answer == s.operations[op].answer)
  }

  lemma StepStays(s: Server, step: Step)
    requires CanStep(s, step)
    ensures Stays(s, After(s, step))
  {
    hide Obstacle, Enabled;
  }

  lemma {:induction false} RunStays(ss: seq<Server>, i: nat, j: nat)
    requires Execution(ss) && i <= j < |ss|
    ensures Stays(ss[i], ss[j])
    decreases j - i
  {
    hide CanStep, After;
    if i < j {
      assert Follows(ss[i], ss[i + 1]);
      var step :| CanStep(ss[i], step) && ss[i + 1] == After(ss[i], step);
      StepStays(ss[i], step);
      RunStays(ss, i + 1, j);
    }
  }

  /** Over any concurrent requests, cancellations, detaches and closing: each
      operation ID applies at most once and its answers say so truthfully; all
      settled answers to one request agree, for ever; no ID is evicted, and
      after closing none is added; at most 256 are recorded. */
  lemma ActionsAtMostOnce(ss: seq<Server>, i: nat, j: nat, a: Action)
    requires Execution(ss) && i <= j < |ss|
    ensures forall op :: op in ss[i].operations ==> AtMostOnce(ss[i], op)
    ensures |ss[i].operations| <= OPERATION_BUDGET
    ensures Answered(ss[i], a).Some? ==> Answered(ss[j], a) == Answered(ss[i], a)
    ensures ss[i].operations.Keys <= ss[j].operations.Keys
    ensures ss[i].closed ==> ss[j].operations.Keys == ss[i].operations.Keys
  {
    hide AtMostOnce, OperationInv, TicketInv, CanStep, After;
    ReachableInv(ss);
    RunStays(ss, i, j);
    forall op | op in ss[i].operations ensures AtMostOnce(ss[i], op) {
      InvMeansAtMostOnce(ss[i], op);
    }
    if ss[i].closed { ClosedForGood(ss, i, j); }
  }

  lemma {:induction false} ClosedForGood(ss: seq<Server>, i: nat, j: nat)
    requires Execution(ss) && i <= j < |ss| && ss[i].closed
    ensures ss[j].closed && ss[j].operations.Keys == ss[i].operations.Keys
    decreases j - i
  {
    hide CanStep, After;
    if i < j {
      assert Follows(ss[i], ss[i + 1]);
      var step :| CanStep(ss[i], step) && ss[i + 1] == After(ss[i], step);
      StepAfterClose(ss[i], step);
      ClosedForGood(ss, i + 1, j);
    }
  }

  lemma StepAfterClose(s: Server, step: Step)
    requires CanStep(s, step) && s.closed
    ensures After(s, step).closed && After(s, step).operations.Keys == s.operations.Keys
  {
    hide Obstacle, Enabled;
  }

  /** An operation that was scheduled can always be brought to its answer: its
      request can move, or has been answered and can be settled. */
  lemma OperationCanProceed(s: Server, op: string)
    requires Inv(s) && op in s.operations && s.operations[op].answer.None?
    ensures exists step :: CanStep(s, step) &&
              (step == Schedule(op, false) || step == Settle(op) ||
               (step.Move? && s.operations[op].ticket == Some(step.k) && !step.move.Expire?))
  {
    hide TicketInv;
    assert OperationInv(s, op);
    var o := s.operations[op];
    if o.ticket.None? {
      assert CanStep(s, Schedule(op, false));
    } else {
      var k := o.ticket.value;
      var t := s.tickets[k];
      AlwaysSettles(t);
      if t.sent != [] {
        assert CanStep(s, Settle(op));
      } else if t.ui == Left {
        LeftOwesAnswer(t);
        var move := if t.requester == Won then RequesterSends else OwnerSends;
        assert CanStep(s, Move(k, move));
      } else {
        var m :| CanMove(t, m) && !m.Expire? && !m.RequesterFires? && !m.OwnerFires?;
        var move := if m.UIChecks? then UIChecks(t.view in s.detached) else m;
        assert CanStep(s, Move(k, move));
      }
    }
  }

  lemma LeftOwesAnswer(t: Ticket)
    requires TicketInv(t) && t.ui == Left && t.sent == []
    ensures t.requester == Won || t.owner == Won
  {
  }

  // ----------------------------------------------------------- the Go object

  class DiagnosticServer {
    const controls: bool
    const execution: bool
    var closed: bool
    var views: map<string, Registration>
    var detached: set<nat>
    var gates: map<nat, nat>
    var tickets: seq<Ticket>
    var operations: map<string, Operation>

    function State(): Server
      reads this
    {
      Server(controls, execution, closed, views, detached, gates, tickets, operations)
    }

    constructor (controls: bool, execution: bool)
      ensures State() == Fresh(controls, execution)
    {
      this.controls, this.execution := controls, execution;
      closed, views, detached, gates, tickets, operations := false, map[], {}, map[], [], map[];
    }

    /** The scan of the declared methods, stopping at the first with the name. */
    method Allowed(r: Registration, name: string) returns (allowed: bool)
      ensures allowed <==> Enabled(State(), r, name)
      ensures allowed <==> controls && exists i :: Declares(r.methods, name, i, execution)
    {
      EnabledMeans(State(), r, name);
      for i := 0 to |r.methods|
        invariant Declared(r.methods, name) == Declared(r.methods[i..], name)
      {
        assert r.methods[i..][1..] == r.methods[i + 1..];
        if r.methods[i].name == name {
          return controls && (r.methods[i].effect != ExecuteEffect || execution);
        }
      }
      return false;
    }

    /** The locked part of `act`. */
    method Begin(a: Action) returns (v: Verdict)
      modifies this
      ensures v == Look(old(State()), a) && State() == Admit(old(State()), a)
      ensures v == Known <==> a.op in old(operations) && old(operations)[a.op].action == a
      ensures v == Mismatch <==> a.op in old(operations) && old(operations)[a.op].action != a
      ensures v.New? <==>
                && a.op !in old(operations) && !closed && |old(operations)| < 256
                && a.view in views && views[a.view].owner !in detached
                && controls && exists i :: Declares(views[a.view].methods, a.name, i, execution)
      ensures operations == if v.New? then old(operations)[a.op := Operation(a, views[a.view].owner, None, None)] else old(operations)
    {
      EnabledMeansAt(State(), a);
      if a.op in operations {
        if operations[a.op].action != a { return Mismatch; }
        return Known;
      }
      if closed { return Refused(IsUnavailable); }
      if a.view !in views || views[a.view].owner in detached { return Refused(IsUnavailable); }
      var allowed := Allowed(views[a.view], a.name);
      if !allowed { return Refused(NotEnabled); }
      if |operations| >= OPERATION_BUDGET { return Refused(BudgetExhausted); }
      v := New(views[a.view].owner);
      operations := operations[a.op := Operation(a, v.owner, None, None)];
    }

    /** `schedule` up to the hand-over to the UI thread, for an admitted action. */
    method ScheduleAction(op: string, expired: bool)
      requires CanStep(State(), Schedule(op, expired))
      modifies this
      ensures State() == After(old(State()), Schedule(op, expired))
    {
      var o := operations[op];
      if o.owner in detached {
        operations := operations[op := o.(answer := Some(AnswerTo(op, Failed(Unavailable))))];
      } else if expired {
        operations := operations[op := o.(answer := Some(AnswerTo(op, Failed(ContextDone))))];
      } else if o.owner in gates {
        operations := operations[op := o.(answer := Some(AnswerTo(op, Failed(Busy))))];
      } else {
        gates := gates[o.owner := |tickets|];
        operations := operations[op := o.(ticket := Some(|tickets|))];
        tickets := tickets + [NewTicket(o.owner, Act(o.action))];
      }
    }

    method SettleAction(op: string)
      requires CanStep(State(), Settle(op))
      modifies this
      ensures State() == After(old(State()), Settle(op))
    {
      var o := operations[op];
      operations := operations[op := o.(answer := Some(AnswerTo(op, tickets[o.ticket.value].sent[0])))];
    }
  }
}
