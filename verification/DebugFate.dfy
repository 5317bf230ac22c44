/** Which answer a scheduled request of apps/debug/view.go gets: the first of its
    three parties to act decides, and everything after it follows from what the
    closure then finds. */
module DebugFate {
  import opened DebugView
  import opened Wrappers

  /** The life of a request, with its moves. */
  ghost predicate Plays(ts: seq<Ticket>, ms: seq<Move>, view: nat, work: Work) {
    && |ts| == |ms| + 1 && ts[0] == NewTicket(view, work)
    && forall i :: 0 <= i < |ms| ==> CanMove(ts[i], ms[i]) && ts[i + 1] == AfterMove(ts[i], ms[i])
  }

  /** The moves that race for a queued request. */
  predicate Decides(m: Move) {
    m.RequesterFires? || m.OwnerFires? || m.UIEnters?
  }

  ghost predicate FirstDecider(ms: seq<Move>, d: nat) {
    d < |ms| && Decides(ms[d]) && forall i :: 0 <= i < d ==> !Decides(ms[i])
  }

  /** What the closure's callback makes of the screen it runs on. */
  predicate Performed(work: Work, screen: Screen, r: Result, applies: seq<(string, bool)>) {
    if screen.snapshot.None? then r == Failed(SnapshotFailed) && applies == []
    else if work.Inspect? then r == Inspected && applies == []
    else if screen.snapshot.value != work.action.revision then r == Failed(Stale) && applies == []
    else if !screen.handler then r == Failed(NoHandler) && applies == []
    else if screen.error.Some? then r == Failed(ApplyFailed(screen.error.value)) && applies == [(work.action.revision, false)]
    else r == Applied(screen.after) && applies == [(work.action.revision, true)]
  }

  /** The closure has checked at `c`: it gave up because the context had ended or
      the view was detached, or called its callback later, at `w`. */
  ghost predicate Concluded(ts: seq<Ticket>, ms: seq<Move>, work: Work, n: nat, c: int, w: int, r: Result, applies: seq<(string, bool)>)
    requires n <= |ms| && |ts| == |ms| + 1
  {
    && 0 <= c < n && ms[c].UIChecks?
    && if ts[c].expired then r == Failed(ContextDone) && applies == []
       else if ms[c].detached then r == Failed(Unavailable) && applies == []
       else c < w < n && ms[w].UIWorks? && Performed(work, ms[w].screen, r, applies)
  }

  ghost predicate Answered(ts: seq<Ticket>, ms: seq<Move>, work: Work, n: nat, r: Result, applies: seq<(string, bool)>)
    requires n <= |ms| && |ts| == |ms| + 1
  {
    exists c, w :: Concluded(ts, ms, work, n, c, w, r, applies)
  }

  predicate ChecksAt(ts: seq<Ticket>, ms: seq<Move>, c: int)
    requires |ts| == |ms| + 1
  {
    0 <= c < |ms| && ms[c].UIChecks? && !ts[c].expired && !ms[c].detached
  }

  ghost predicate Checked(ts: seq<Ticket>, ms: seq<Move>, n: nat)
    requires |ts| == |ms| + 1
  {
    exists c :: c < n && ChecksAt(ts, ms, c)
  }

  ghost predicate Undecided(t: Ticket) {
    t.flag == Queued && t.requester == Armed && t.owner == Armed && t.ui == Waiting && t.sent == [] && t.applies == []
  }

  /** A cancellation callback has won, and answers with its own cause. */
  ghost predicate Lost(t: Ticket, winner: Racer, loser: Racer, cause: Cause) {
    && t.flag == Settled && loser != Won && t.ui in {Waiting, Leaving, Left} && t.applies == []
    && ((winner == Won && t.sent == []) || (winner == Over && t.sent == [Failed(cause)]))
  }

  /** The closure has won, and is as far as its state says. */
  ghost predicate Running(ts: seq<Ticket>, ms: seq<Move>, work: Work, n: nat)
    requires n <= |ms| && |ts| == |ms| + 1
  {
    var t := ts[n];
    && t.requester != Won && t.owner != Won
    && match t.ui
       case Waiting => false
       case Entered => t.flag == DebugView.Running && t.sent == [] && t.applies == []
       case Working => t.flag == DebugView.Running && t.sent == [] && t.applies == [] && Checked(ts, ms, n)
       case Computed(r) => t.flag == Settled && t.sent == [] && Answered(ts, ms, work, n, r, t.applies)
       case _ => t.flag == Settled && |t.sent| == 1 && Answered(ts, ms, work, n, t.sent[0], t.applies)
  }

  ghost predicate Fate(ts: seq<Ticket>, ms: seq<Move>, work: Work, d: nat, n: nat)
    requires n <= |ms| && |ts| == |ms| + 1 && d < |ms|
  {
    if n <= d then Undecided(ts[n])
    else
      match ms[d]
      case RequesterFires => Lost(ts[n], ts[n].requester, ts[n].owner, ContextDone)
      case OwnerFires => Lost(ts[n], ts[n].owner, ts[n].requester, Unavailable)
      case _ => Running(ts, ms, work, n)
  }

  lemma AnsweredStill(ts: seq<Ticket>, ms: seq<Move>, work: Work, n: nat, r: Result, applies: seq<(string, bool)>)
    requires n < |ms| && |ts| == |ms| + 1 && Answered(ts, ms, work, n, r, applies)
    ensures Answered(ts, ms, work, n + 1, r, applies)
  {
    hide Performed;
    var c, w :| Concluded(ts, ms, work, n, c, w, r, applies);
    assert Concluded(ts, ms, work, n + 1, c, w, r, applies);
  }

  lemma WorksAnswers(ts: seq<Ticket>, ms: seq<Move>, work: Work, n: nat)
    requires n < |ms| && |ts| == |ms| + 1 && Checked(ts, ms, n) && ms[n].UIWorks?
    requires ts[n].applies == [] && ts[n].work == work && CanMove(ts[n], ms[n]) && ts[n + 1] == AfterMove(ts[n], ms[n])
    ensures ts[n + 1].ui.Computed? && Answered(ts, ms, work, n + 1, ts[n + 1].ui.result, ts[n + 1].applies)
  {
    var c :| c < n && ChecksAt(ts, ms, c);
    assert Concluded(ts, ms, work, n + 1, c, n, ts[n + 1].ui.result, ts[n + 1].applies);
  }

  lemma ChecksAnswer(ts: seq<Ticket>, ms: seq<Move>, work: Work, n: nat)
    requires n < |ms| && |ts| == |ms| + 1 && ms[n].UIChecks? && ts[n].applies == []
    requires CanMove(ts[n], ms[n]) && ts[n + 1] == AfterMove(ts[n], ms[n])
    ensures ts[n + 1].ui == Working ==> Checked(ts, ms, n + 1)
    ensures ts[n + 1].ui.Computed? ==> Answered(ts, ms, work, n + 1, ts[n + 1].ui.result, [])
  {
    hide Performed;
    if ts[n + 1].ui == Working { assert ChecksAt(ts, ms, n); }
    if ts[n + 1].ui.Computed? { assert Concluded(ts, ms, work, n + 1, n, n, ts[n + 1].ui.result, []); }
  }

  lemma RunningNext(ts: seq<Ticket>, ms: seq<Move>, work: Work, n: nat)
    requires n < |ms| && |ts| == |ms| + 1 && Running(ts, ms, work, n) && ts[n].work == work
    requires CanMove(ts[n], ms[n]) && ts[n + 1] == AfterMove(ts[n], ms[n])
    ensures Running(ts, ms, work, n + 1)
  {
    hide Answered, Checked, Perform;
    var t := ts[n];
    if ms[n].UIChecks? { ChecksAnswer(ts, ms, work, n); }
    if ms[n].UIWorks? { WorksAnswers(ts, ms, work, n); }
    if t.ui == Working { CheckedStill(ts, ms, n); }
    if t.ui.Computed? { AnsweredStill(ts, ms, work, n, t.ui.result, t.applies); }
    if t.ui == Leaving || t.ui == Left { AnsweredStill(ts, ms, work, n, t.sent[0], t.applies); }
  }

  lemma CheckedStill(ts: seq<Ticket>, ms: seq<Move>, n: nat)
    requires |ts| == |ms| + 1 && Checked(ts, ms, n)
    ensures Checked(ts, ms, n + 1)
  {
    var c :| c < n && ChecksAt(ts, ms, c);
    assert ChecksAt(ts, ms, c);
  }

  lemma LostNext(t: Ticket, m: Move)
    requires CanMove(t, m)
    ensures Lost(t, t.requester, t.owner, ContextDone) ==>
              var t' := AfterMove(t, m); Lost(t', t'.requester, t'.owner, ContextDone)
    ensures Lost(t, t.owner, t.requester, Unavailable) ==>
              var t' := AfterMove(t, m); Lost(t', t'.owner, t'.requester, Unavailable)
  {
    hide Perform;
  }

  /** The first move that decides. */
  lemma DecidedNext(t: Ticket, m: Move)
    requires Undecided(t) && CanMove(t, m)
    ensures var t' := AfterMove(t, m);
      && (!Decides(m) ==> Undecided(t'))
      && (m.RequesterFires? ==> Lost(t', t'.requester, t'.owner, ContextDone))
      && (m.OwnerFires? ==> Lost(t', t'.owner, t'.requester, Unavailable))
      && (m.UIEnters? ==> t'.ui == Entered && t'.flag == DebugView.Running && t'.sent == [] && t'.applies == []
                          && t'.requester != Won && t'.owner != Won)
  {
    hide Perform;
  }

  lemma {:induction false} SameWork(ts: seq<Ticket>, ms: seq<Move>, view: nat, work: Work, n: nat)
    requires Plays(ts, ms, view, work) && n <= |ms|
    ensures ts[n].work == work && ts[n].view == view
  {
    if n > 0 {
      SameWork(ts, ms, view, work, n - 1);
      assert CanMove(ts[n - 1], ms[n - 1]) && ts[n - 1 + 1] == AfterMove(ts[n - 1], ms[n - 1]);
    }
  }

  lemma {:induction false} FateKept(ts: seq<Ticket>, ms: seq<Move>, view: nat, work: Work, d: nat, n: nat)
    requires Plays(ts, ms, view, work) && FirstDecider(ms, d) && n <= |ms|
    ensures Fate(ts, ms, work, d, n)
    decreases n
  {
    hide Performed, Answered, Checked, Lost, Undecided, CanMove, AfterMove, Decides;
    if n == 0 {
      NewUndecided(view, work);
    } else {
      FateKept(ts, ms, view, work, d, n - 1);
      SameWork(ts, ms, view, work, n - 1);
      assert CanMove(ts[n - 1], ms[n - 1]) && ts[n - 1 + 1] == AfterMove(ts[n - 1], ms[n - 1]);
      if n - 1 <= d {
        DecidedNext(ts[n - 1], ms[n - 1]);
        if n - 1 == d { OnlyThese(ms[d]); }
      } else if ms[d].UIEnters? {
        RunningNext(ts, ms, work, n - 1);
      } else {
        OnlyThese(ms[d]);
        LostNext(ts[n - 1], ms[n - 1]);
      }
    }
  }

  lemma NewUndecided(view: nat, work: Work)
    ensures Undecided(NewTicket(view, work))
  {
  }

  lemma OnlyThese(m: Move)
    requires Decides(m)
    ensures m.RequesterFires? || m.OwnerFires? || m.UIEnters?
  {
  }

  /** Once only outside events are left, the request was answered by the first of
      its parties to act: "context ended" if that was its own cancellation,
      "unavailable" if the view was detached first, and otherwise what the closure
      found when it checked, or what its callback then did. */
  lemma FirstDecides(ts: seq<Ticket>, ms: seq<Move>, view: nat, work: Work) returns (d: nat)
    requires Plays(ts, ms, view, work) && Resting(ts[|ms|])
    ensures FirstDecider(ms, d)
    ensures var t := ts[|ms|];
      && (ms[d].RequesterFires? ==> t.sent == [Failed(ContextDone)] && t.applies == [])
      && (ms[d].OwnerFires? ==> t.sent == [Failed(Unavailable)] && t.applies == [])
      && (ms[d].UIEnters? ==> |t.sent| == 1 && Answered(ts, ms, work, |ms|, t.sent[0], t.applies))
  {
    hide Answered, Checked, AfterMove;
    var t := ts[|ms|];
    assert !CanMove(t, UIEnters) && !CanMove(t, UIChecks(false)) && !CanMove(t, UISends) && !CanMove(t, UILeaves);
    assert !CanMove(t, UIWorks(Screen(None, false, None, None))) && !CanMove(t, RequesterSends) && !CanMove(t, OwnerSends);
    d := SomeDecider(ts, ms, view, work, |ms|);
    FateKept(ts, ms, view, work, d, |ms|);
  }

  lemma {:induction false} SomeDecider(ts: seq<Ticket>, ms: seq<Move>, view: nat, work: Work, n: nat) returns (d: nat)
    requires Plays(ts, ms, view, work) && n <= |ms| && ts[n].ui != Waiting
    ensures FirstDecider(ms, d)
    decreases n
  {
    assert CanMove(ts[n - 1], ms[n - 1]) && ts[n - 1 + 1] == AfterMove(ts[n - 1], ms[n - 1]);
    if ts[n - 1].ui != Waiting {
      d := SomeDecider(ts, ms, view, work, n - 1);
    } else {
      assert Decides(ms[n - 1]);
      d := 0;
      while !Decides(ms[d])
        invariant d <= n - 1 && forall i :: 0 <= i < d ==> !Decides(ms[i])
        decreases n - d
      {
        d := d + 1;
      }
    }
  }
}
