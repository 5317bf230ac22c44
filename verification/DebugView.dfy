/** `View.schedule` of apps/debug/view.go: a request queued for the UI thread is
    settled by whichever of three parties wins the compare-and-swap: the
    request's own cancellation, the detaching of the view, or the UI closure. */
module DebugView {
  import opened Wrappers

  datatype Action = Action(op: string, view: string, revision: string, name: string, args: string)

  /** What is queued: an action, or a read or capture that changes nothing. */
  datatype Work = Act(action: Action) | Inspect

  datatype Cause = ContextDone | Unavailable | Busy | Stale | NoHandler | SnapshotFailed | ApplyFailed(cancellation: bool)

  /** `viewResult`. After a successful `apply` the follow-up revision may be missing. */
  datatype Result = Applied(after: Option<string>) | Inspected | Failed(cause: Cause)

  /** The atomic `state`: queued = 0, running = 1, settled = 2. */
  datatype Flag = Queued | Running | Settled

  /** A cancellation callback: has won the swap and still has to send, or is over. */
  datatype Racer = Armed | Won | Over

  datatype UI = Waiting | Entered | Working | Computed(result: Result) | Leaving | Left

  /** One scheduled request. `sent` is what went into the channel `done`;
      `applies` are the calls of `apply`: the revision seen, and success. */
  datatype Ticket = Ticket(
    view: nat, work: Work, flag: Flag, requester: Racer, owner: Racer, ui: UI,
    sent: seq<Result>, applies: seq<(string, bool)>, expired: bool)

  function NewTicket(view: nat, work: Work): Ticket {
    Ticket(view, work, Queued, Armed, Armed, Waiting, [], [], false)
  }

  /** What the registered callbacks of the view answer while the closure runs on
      the UI thread. */
  datatype Screen = Screen(
    snapshot: Option<string>,  // the current revision, or a failed snapshot
    handler: bool,             // apply != nil
    error: Option<bool>,       // apply's error; true when it is a cancellation
    after: Option<string>)     // the follow-up revision

  datatype Move =
    | Expire                        // the request's context ends
    | RequesterFires | RequesterSends
    | OwnerFires | OwnerSends
    | UIEnters
    | UIChecks(detached: bool)      // v.life.Err() != nil
    | UIWorks(screen: Screen)
    | UISends
    | UILeaves

  predicate CanMove(t: Ticket, m: Move) {
    match m
    case Expire => !t.expired
    case RequesterFires => t.expired && t.requester == Armed
    case RequesterSends => t.requester == Won
    case OwnerFires => t.owner == Armed
    case OwnerSends => t.owner == Won
    case UIEnters => t.ui == Waiting
    case UIChecks(_) => t.ui == Entered
    case UIWorks(_) => t.ui == Working
    case UISends => t.ui.Computed?
    case UILeaves => t.ui == Leaving
  }

  /** `View.action`'s closure; anything else is a read. */
  function Perform(t: Ticket, screen: Screen): (Result, seq<(string, bool)>) {
    match t.work
    case Inspect => (if screen.snapshot.None? then Failed(SnapshotFailed) else Inspected, [])
    case Act(action) =>
      if screen.snapshot.None? then (Failed(SnapshotFailed), [])
      else if screen.snapshot.value != action.revision then (Failed(Stale), [])
      else if !screen.handler then (Failed(NoHandler), [])
      else (if screen.error.Some? then Failed(ApplyFailed(screen.error.value)) else Applied(screen.after),
            [(screen.snapshot.value, screen.error.None?)])
  }

  function AfterMove(t: Ticket, m: Move): Ticket
    requires CanMove(t, m)
  {
    match m
    case Expire => t.(expired := true)
    case RequesterFires => if t.flag == Queued then t.(flag := Settled, requester := Won) else t.(requester := Over)
    case RequesterSends => t.(sent := t.sent + [Failed(ContextDone)], requester := Over)
    case OwnerFires => if t.flag == Queued then t.(flag := Settled, owner := Won) else t.(owner := Over)
    case OwnerSends => t.(sent := t.sent + [Failed(Unavailable)], owner := Over)
    case UIEnters => if t.flag == Queued then t.(flag := Running, ui := Entered) else t.(ui := Leaving)
    case UIChecks(detached) =>
      if t.expired then t.(flag := Settled, ui := Computed(Failed(ContextDone)))
      else if detached then t.(flag := Settled, ui := Computed(Failed(Unavailable)))
      else t.(ui := Working)
    case UIWorks(screen) =>
      var (result, applied) := Perform(t, screen);
      t.(flag := Settled, ui := Computed(result), applies := t.applies + applied)
    case UISends => t.(sent := t.sent + [t.ui.result], ui := Leaving)
    case UILeaves => t.(ui := Left)
  }

  function Busyness(t: Ticket): nat {
    (if t.requester == Won then 1 else 0) + (if t.owner == Won then 1 else 0) +
    (if t.ui.Entered? || t.ui.Working? || t.ui.Computed? then 1 else 0)
  }

  /** The result says "applied" exactly when `apply` was called and succeeded. */
  predicate Truthful(t: Ticket, r: Result) {
    && (r.Applied? <==> exists i :: 0 <= i < |t.applies| && t.applies[i].1)
    && (r.Inspected? ==> t.work.Inspect?)
  }

  /** `apply` is called at most once, and only at the requested revision. */
  predicate AppliedOnce(t: Ticket) {
    |t.applies| <= 1 && (t.applies != [] ==> t.work.Act? && t.applies[0].0 == t.work.action.revision)
  }

  /** Exactly one party is answerable for the result until it is sent, once. */
  ghost predicate TicketInv(t: Ticket) {
    && (t.flag == Queued ==> Busyness(t) == 0 && t.sent == [] && t.ui == Waiting)
    && (t.flag == Running <==> t.ui == Entered || t.ui == Working)
    && (t.flag != Queued ==> Busyness(t) + |t.sent| == 1)
    && (t.requester == Won || t.owner == Won || t.ui == Waiting || t.ui == Entered || t.ui == Working ==> t.applies == [])
    && (t.ui.Computed? ==> Truthful(t, t.ui.result))
    && (|t.sent| > 0 ==> Truthful(t, t.sent[0]))
    && AppliedOnce(t)
  }

  lemma SameApplies(t: Ticket, t': Ticket)
    requires t'.applies == t.applies && t'.work == t.work
    ensures forall r :: Truthful(t', r) == Truthful(t, r)
    ensures t.applies == [] ==> forall cause :: Truthful(t', Failed(cause))
  {
  }

  lemma TruthfulOnce(t: Ticket, r: Result)
    requires |t.applies| <= 1
    ensures Truthful(t, r) <==>
      (r.Applied? <==> |t.applies| == 1 && t.applies[0].1) && (r.Inspected? ==> t.work.Inspect?)
  {
  }

  lemma PerformMeans(t: Ticket, screen: Screen)
    ensures var (result, applied) := Perform(t, screen);
      && |applied| <= 1
      && (result.Applied? <==> |applied| == 1 && applied[0].1)
      && (result.Inspected? ==> t.work.Inspect?)
      && (applied != [] ==> t.work.Act? && applied[0].0 == t.work.action.revision)
  {
  }

  lemma WorksKeepsTicket(t: Ticket, screen: Screen)
    requires TicketInv(t) && CanMove(t, UIWorks(screen))
    ensures TicketInv(AfterMove(t, UIWorks(screen)))
  {
    hide Truthful, Perform;
    var t' := AfterMove(t, UIWorks(screen));
    PerformMeans(t, screen);
    assert t'.applies == Perform(t, screen).1;
    TruthfulOnce(t', Perform(t, screen).0);
  }

  lemma MoveKeepsTicket(t: Ticket, m: Move)
    requires TicketInv(t) && CanMove(t, m)
    ensures TicketInv(AfterMove(t, m))
  {
    hide Truthful, Perform;
    if m.UIWorks? {
      WorksKeepsTicket(t, m.screen);
    } else {
      SameApplies(t, AfterMove(t, m));
    }
  }

  lemma NewTicketInv(view: nat, work: Work)
    ensures TicketInv(NewTicket(view, work))
  {
  }

  /** Until its closure has left, a request can always move on; when it has, it
      was answered exactly once or a winner is about to answer. */
  lemma AlwaysSettles(t: Ticket)
    requires TicketInv(t)
    ensures t.ui != Left ==> exists m :: CanMove(t, m) && !m.Expire? && !m.RequesterFires? && !m.OwnerFires?
    ensures t.ui == Left ==> |t.sent| + Busyness(t) == 1
    ensures |t.sent| <= 1
  {
    match t.ui
    case Waiting => assert CanMove(t, UIEnters);
    case Entered => assert CanMove(t, UIChecks(false));
    case Working => assert CanMove(t, UIWorks(Screen(None, false, None, None)));
    case Computed(_) => assert CanMove(t, UISends);
    case Leaving => assert CanMove(t, UILeaves);
    case Left =>
  }

  /** What a request can still do, at most. */
  function Remaining(t: Ticket): nat {
    (if t.expired then 0 else 1) + ToGo(t.requester) + ToGo(t.owner) +
    match t.ui
    case Waiting => 5
    case Entered => 4
    case Working => 3
    case Computed(_) => 2
    case Leaving => 1
    case Left => 0
  }

  function ToGo(r: Racer): nat {
    match r case Armed => 2 case Won => 1 case Over => 0
  }

  lemma MoveUsesUp(t: Ticket, m: Move)
    requires CanMove(t, m)
    ensures Remaining(AfterMove(t, m)) < Remaining(t)
  {
  }

  /** Moves that come from outside and need never happen. */
  predicate Outside(m: Move) {
    m.Expire? || m.RequesterFires? || m.OwnerFires?
  }

  ghost predicate Resting(t: Ticket) {
    forall m :: CanMove(t, m) ==> Outside(m)
  }

  ghost predicate Moved(t: Ticket, t': Ticket) {
    exists m :: CanMove(t, m) && t' == AfterMove(t, m)
  }

  /** The life of one request, however its three parties interleave. */
  ghost predicate Life(ts: seq<Ticket>, view: nat, work: Work) {
    |ts| > 0 && ts[0] == NewTicket(view, work) && forall i :: 0 <= i < |ts| - 1 ==> Moved(ts[i], ts[i + 1])
  }

  lemma {:induction false} LifeKeeps(ts: seq<Ticket>, view: nat, work: Work, n: nat)
    requires Life(ts, view, work) && n < |ts|
    ensures TicketInv(ts[n]) && n + Remaining(ts[n]) <= Remaining(ts[0])
    decreases n
  {
    hide TicketInv, CanMove, AfterMove, Remaining;
    if n == 0 {
      NewTicketInv(view, work);
    } else {
      LifeKeeps(ts, view, work, n - 1);
      assert Moved(ts[n - 1], ts[n]);
      var m :| CanMove(ts[n - 1], m) && ts[n] == AfterMove(ts[n - 1], m);
      MoveKeepsTicket(ts[n - 1], m);
      MoveUsesUp(ts[n - 1], m);
    }
  }

  /** Every request comes to rest within ten moves, and when nothing but outside
      events can happen any more it has been answered, exactly once and truly. */
  lemma EveryLifeIsAnswered(ts: seq<Ticket>, view: nat, work: Work)
    requires Life(ts, view, work)
    ensures |ts| <= 11
    ensures var t := ts[|ts| - 1];
      && |t.sent| <= 1
      && (Resting(t) ==> t.ui == Left && |t.sent| == 1 && Truthful(t, t.sent[0]))
  {
    hide AfterMove;
    var t := ts[|ts| - 1];
    LifeKeeps(ts, view, work, |ts| - 1);
    AlwaysSettles(t);
    if Resting(t) {
      assert t.requester == Won ==> CanMove(t, RequesterSends);
      assert t.owner == Won ==> CanMove(t, OwnerSends);
    }
  }

  /** What `schedule` allocates, as an object; each method is one atomic access
      and what follows it on the same goroutine. */
  class Request {
    const view: nat
    const work: Work
    var state: Flag
    var requester: Racer
    var owner: Racer
    var ui: UI
    var done: seq<Result>
    var applies: seq<(string, bool)>
    var expired: bool

    function Now(): Ticket
      reads this
    {
      Ticket(view, work, state, requester, owner, ui, done, applies, expired)
    }

    constructor (view: nat, work: Work)
      ensures Now() == NewTicket(view, work)
    {
      this.view, this.work := view, work;
      state, requester, owner, ui, done, applies, expired := Queued, Armed, Armed, Waiting, [], [], false;
    }

    method CompareAndSwap(from: Flag, to: Flag) returns (swapped: bool)
      modifies this`state
      ensures swapped <==> old(state) == from
      ensures state == if swapped then to else old(state)
    {
      swapped := state == from;
      if swapped { state := to; }
    }

    method RequestEnded()
      requires CanMove(Now(), RequesterFires)
      modifies this
      ensures Now() == AfterMove(old(Now()), RequesterFires)
    {
      var won := CompareAndSwap(Queued, Settled);
      requester := if won then Won else Over;
    }

    method OwnerEnded()
      requires CanMove(Now(), OwnerFires)
      modifies this
      ensures Now() == AfterMove(old(Now()), OwnerFires)
    {
      var won := CompareAndSwap(Queued, Settled);
      owner := if won then Won else Over;
    }

    method Enter()
      requires CanMove(Now(), UIEnters)
      modifies this
      ensures Now() == AfterMove(old(Now()), UIEnters)
    {
      var won := CompareAndSwap(Queued, Running);
      ui := if won then Entered else Leaving;
    }

    method Check(detached: bool)
      requires CanMove(Now(), UIChecks(detached))
      modifies this
      ensures Now() == AfterMove(old(Now()), UIChecks(detached))
    {
      if expired {
        state, ui := Settled, Computed(Failed(ContextDone));
      } else if detached {
        state, ui := Settled, Computed(Failed(Unavailable));
      } else {
        ui := Working;
      }
    }

    method Work(screen: Screen)
      requires CanMove(Now(), UIWorks(screen))
      modifies this
      ensures Now() == AfterMove(old(Now()), UIWorks(screen))
    {
      var result: Result;
      if screen.snapshot.None? {
        result := Failed(SnapshotFailed);
      } else if work.Inspect? {
        result := Inspected;
      } else if screen.snapshot.value != work.action.revision {
        result := Failed(Stale);
      } else if !screen.handler {
        result := Failed(NoHandler);
      } else {
        applies := applies + [(screen.snapshot.value, screen.error.None?)];
        result := if screen.error.Some? then Failed(ApplyFailed(screen.error.value)) else Applied(screen.after);
      }
      state, ui := Settled, Computed(result);
    }

    method Send()
      requires CanMove(Now(), UISends)
      modifies this
      ensures Now() == AfterMove(old(Now()), UISends)
    {
      done, ui := done + [ui.result], Leaving;
    }
  }
}
