/** Every uncancelled waiter gets in, although admission wakes nobody, provided
    holders release and woken waiters are scheduled. It is enough that the holders
    of the waiter's own zone release: a set of workspaces that nothing requested
    outside of it overlaps. */
module WorkspaceLiveness {
  import opened WorkspacePaths
  import opened WorkspaceRegistry
  import opened WorkspaceAdmission
  import opened Wrappers

  /** An infinite run; `None` lets time pass. */
  datatype Run = Run(state: nat -> World, act: nat -> Option<Step>)

  ghost predicate IsRun(run: Run) {
    run.state(0) == START && forall i: nat :: Moves(run, i)
  }

  ghost predicate Moves(run: Run, i: nat) {
    match run.act(i)
    case None => run.state(i + 1) == run.state(i)
    case Some(step) => Enabled(run.state(i), step) && run.state(i + 1) == Next(run.state(i), step)
  }

  ghost predicate ReleasedLater(run: Run, i: nat, id: nat) {
    exists j: nat :: j >= i && !Has(run.state(j), id, Active)
  }

  ghost predicate ResumedLater(run: Run, i: nat, id: nat) {
    exists j: nat :: j >= i && run.act(j) == Some(Resume(id))
  }

  /** Holders eventually release. */
  ghost predicate HoldersRelease(run: Run) {
    forall i: nat, id: nat :: Has(run.state(i), id, Active) ==> ReleasedLater(run, i, id)
  }

  /** Holders of workspaces in the zone eventually release. */
  ghost predicate HoldersReleaseIn(run: Run, zone: Path -> bool) {
    forall i: nat, id: nat ::
      Has(run.state(i), id, Active) && zone(run.state(i).history[id].path) ==> ReleasedLater(run, i, id)
  }

  /** Whatever was ever requested and overlaps the zone is in it. */
  ghost predicate Closed(w: World, zone: Path -> bool) {
    forall a, b ::
      a in w.history && b in w.history && zone(w.history[a].path) && Overlaps(w.history[a].path, w.history[b].path)
      ==> zone(w.history[b].path)
  }

  ghost predicate ClosedRun(run: Run, zone: Path -> bool) {
    forall i: nat :: Closed(run.state(i), zone)
  }

  /** A waiter whose channel was closed eventually takes the lock again. */
  ghost predicate WokenWaitersRun(run: Run) {
    forall i: nat, id: nat :: Runnable(run.state(i), id) ==> ResumedLater(run, i, id)
  }

  lemma {:induction false} RunInv(run: Run, i: nat)
    requires IsRun(run)
    ensures Inv(run.state(i))
  {
    hide Inv, Next, Enabled;
    if i == 0 {
      StartInv();
    } else {
      RunInv(run, i - 1);
      assert Moves(run, i - 1);
      match run.act(i - 1)
      case None =>
      case Some(step) => StepKeepsInv(run.state(i - 1), step);
    }
  }

  // ------------------------------------------------------------ the measure

  /** The part of the queue that matters to request `id`. */
  ghost function Ahead(w: World, id: nat, zone: Path -> bool): set<Lease> {
    set l | l in w.registry.waiting && l.id <= id && zone(l.path)
  }

  /** Holders in the way of some request of that part. */
  ghost function Blockers(w: World, id: nat, zone: Path -> bool): set<Lease> {
    set a | a in w.registry.active && Blocks(w, id, zone, a)
  }

  ghost predicate Blocks(w: World, id: nat, zone: Path -> bool, a: Lease) {
    exists l :: l in w.registry.waiting && l.id <= id && zone(l.path) && Conflicts(a, l)
  }

  ghost function Rank(w: World, id: nat, zone: Path -> bool): nat {
    2 * |Ahead(w, id, zone)| + |Blockers(w, id, zone)|
  }

  /** Either that part of the queue is unchanged and no blocker was added, or one
      request left it and is at most the only new blocker. */
  ghost predicate Shrinks(w: World, w': World, id: nat, zone: Path -> bool) {
    || (Ahead(w', id, zone) == Ahead(w, id, zone) && Blockers(w', id, zone) <= Blockers(w, id, zone))
    || (exists p :: p in Ahead(w, id, zone)
          && Ahead(w', id, zone) == Ahead(w, id, zone) - {p} && Blockers(w', id, zone) <= Blockers(w, id, zone) + {p})
  }

  lemma SubsetSize<T>(a: set<T>, b: set<T>)
    requires a <= b
    ensures |a| <= |b|
    ensures |a| == |b| ==> a == b
  {
    assert b == a + (b - a);
  }

  lemma ShrinksRank(w: World, w': World, id: nat, zone: Path -> bool)
    requires Shrinks(w, w', id, zone)
    ensures Rank(w', id, zone) <= Rank(w, id, zone)
    ensures Rank(w', id, zone) == Rank(w, id, zone) ==>
              Ahead(w', id, zone) == Ahead(w, id, zone) && Blockers(w', id, zone) == Blockers(w, id, zone)
  {
    hide Ahead, Blockers;
    if Ahead(w', id, zone) == Ahead(w, id, zone) && Blockers(w', id, zone) <= Blockers(w, id, zone) {
      SubsetSize(Blockers(w', id, zone), Blockers(w, id, zone));
    } else {
      var p :| p in Ahead(w, id, zone)
        && Ahead(w', id, zone) == Ahead(w, id, zone) - {p} && Blockers(w', id, zone) <= Blockers(w, id, zone) + {p};
      SubsetSize(Blockers(w', id, zone), Blockers(w, id, zone) + {p});
    }
  }

  lemma PassShrinks(w: World, request: Lease, id: nat, zone: Path -> bool)
    requires QueueInv(w.registry) && HistoryInv(w) && Closed(w, zone) && request in w.registry.waiting
    requires Has(w, id, Waiting) && Has(Pass(w, request), id, Waiting)
    ensures Shrinks(w, Pass(w, request), id, zone)
  {
    hide Overlaps, ClearAhead, Ahead, Blockers, Closed;
    LeaveQueue(w.registry, request.id);
    var w' := Pass(w, request);
    if w'.registry.waiting == w.registry.waiting {
      PassOutcomes(w, request, request.id + 1);
      assert request !in Without(w.registry.waiting, request.id);
      QueueStays(w, w', id, zone);
    } else {
      PassAhead(w, request, id, zone);
      PassBlockers(w, request, id, zone);
    }
  }

  lemma QueueStays(w: World, w': World, id: nat, zone: Path -> bool)
    requires w'.registry.waiting == w.registry.waiting && w'.registry.active == w.registry.active
    ensures Ahead(w', id, zone) == Ahead(w, id, zone) && Blockers(w', id, zone) == Blockers(w, id, zone)
  {
    hide Conflicts;
  }

  /** A request that leaves the queue leaves that part of it, if it was there. */
  lemma PassAhead(w: World, request: Lease, id: nat, zone: Path -> bool)
    requires QueueInv(w.registry) && request in w.registry.waiting
    requires Pass(w, request).registry.waiting != w.registry.waiting
    ensures request.id <= id && zone(request.path) ==>
              request in Ahead(w, id, zone) && Ahead(Pass(w, request), id, zone) == Ahead(w, id, zone) - {request}
    ensures request.id > id || !zone(request.path) ==> Ahead(Pass(w, request), id, zone) == Ahead(w, id, zone)
  {
    hide Overlaps, ClearAhead, Pass, Without;
    PassOutcomes(w, request, request.id + 1);
    LeaveQueue(w.registry, request.id);
    forall l | l in w.registry.waiting && l.id == request.id ensures l == request {
      SameIdSameWaiter(w.registry, l, request);
    }
  }

  /** Only the passed request can become a blocker, and only of later ones in its zone. */
  lemma PassBlockers(w: World, request: Lease, id: nat, zone: Path -> bool)
    requires QueueInv(w.registry) && HistoryInv(w) && Closed(w, zone) && request in w.registry.waiting
    requires Pass(w, request).registry.waiting != w.registry.waiting
    ensures Blockers(Pass(w, request), id, zone) <= Blockers(w, id, zone) + {request}
    ensures request.id > id || !zone(request.path) ==> Blockers(Pass(w, request), id, zone) <= Blockers(w, id, zone)
  {
    hide Overlaps, ClearAhead, Pass, Without, HistoryInv, Closed;
    PassOutcomes(w, request, request.id + 1);
    LeaveQueue(w.registry, request.id);
    AheadIsEarlier(w.registry.waiting, request);
    var w' := Pass(w, request);
    forall a | a in Blockers(w', id, zone) ensures a in Blockers(w, id, zone) + {request}
      ensures request.id > id || !zone(request.path) ==> a in Blockers(w, id, zone)
    {
      var l :| l in w'.registry.waiting && l.id <= id && zone(l.path) && Conflicts(a, l);
      assert l in w.registry.waiting;
      OverlapsSymmetric(a.path, l.path);
      if a == request { ZoneOfWaiters(w, l, request, zone); }
    }
  }

  lemma ZoneOfWaiters(w: World, l: Lease, m: Lease, zone: Path -> bool)
    requires HistoryInv(w) && Closed(w, zone) && l in w.registry.waiting && m in w.registry.waiting
    requires zone(l.path) && Overlaps(l.path, m.path)
    ensures zone(m.path)
  {
    hide HistoryInv, Overlaps;
    WaiterRecorded(w, l);
    WaiterRecorded(w, m);
  }

  lemma QueuedSame(w: World, request: Lease, expired: bool, id: nat, zone: Path -> bool)
    requires HistoryInv(w) && request.id == w.registry.next + 1 && Has(w, id, Waiting)
    ensures var q := Queued(w, request, expired);
            Ahead(q, id, zone) == Ahead(w, id, zone) && Blockers(q, id, zone) == Blockers(w, id, zone)
  {
    hide Conflicts;
    var q := Queued(w, request, expired);
    forall a | a in w.registry.active ensures Blocks(q, id, zone, a) == Blocks(w, id, zone, a) {
      if Blocks(w, id, zone, a) {
        var l :| l in w.registry.waiting && l.id <= id && zone(l.path) && Conflicts(a, l);
        assert l in q.registry.waiting;
      }
    }
  }

  lemma ReleaseShrinks(w: World, gone: nat, id: nat, zone: Path -> bool)
    requires Inv(w) && Has(w, gone, Active)
    ensures Shrinks(w, Next(w, Release(gone)), id, zone)
  {
    hide Admissible, Conflicts, Released;
    ReleaseKeepsRegistry(w, gone);
  }

  /** While `id` waits, no step of anybody makes its rank larger. */
  lemma StepShrinks(w: World, step: Step, id: nat, zone: Path -> bool)
    requires Inv(w) && Enabled(w, step) && Closed(w, zone) && Closed(Next(w, step), zone)
    requires Has(w, id, Waiting) && Has(Next(w, step), id, Waiting)
    ensures Shrinks(w, Next(w, step), id, zone)
  {
    hide Admissible, Pass, Conflicts, Queued, NoLostWakeup, Exclusion, Ahead, Blockers, Closed;
    match step
    case Arrive(path, exclusive, expired) =>
      if path.Some? && |w.registry.waiting| < WAITER_BUDGET {
        var request := Lease(w.registry.next + 1, path.value, exclusive);
        ArriveShrinks(w, request, expired, id, zone);
      } else {
        QueueStays(w, w, id, zone);
      }
    case Cancel(_) => CancelShrinks(w, step.id, id, zone);
    case Resume(_) => PassShrinks(w, w.history[step.id], id, zone);
    case Release(gone) => ReleaseShrinks(w, gone, id, zone);
  }

  lemma CancelShrinks(w: World, other: nat, id: nat, zone: Path -> bool)
    requires Has(w, other, Waiting)
    ensures Shrinks(w, Next(w, Cancel(other)), id, zone)
  {
    hide Conflicts;
    QueueStays(w, Next(w, Cancel(other)), id, zone);
  }

  lemma ArriveShrinks(w: World, request: Lease, expired: bool, id: nat, zone: Path -> bool)
    requires Inv(w) && request.id == w.registry.next + 1 && |w.registry.waiting| < WAITER_BUDGET
    requires Closed(Pass(Queued(w, request, expired), request), zone)
    requires Has(w, id, Waiting) && Has(Pass(Queued(w, request, expired), request), id, Waiting)
    ensures Shrinks(w, Pass(Queued(w, request, expired), request), id, zone)
  {
    hide Admissible, Pass, Conflicts, NoLostWakeup, Exclusion, Ahead, Blockers, Closed;
    var q := Queued(w, request, expired);
    QueuedKeepsQueue(w, request, expired);
    QueuedKeepsHistory(w, request, expired);
    QueuedSame(w, request, expired, id, zone);
    assert request in q.registry.waiting;
    PassKeepsZone(q, request, zone);
    PassShrinks(q, request, id, zone);
  }

  lemma PassKeepsZone(w: World, request: Lease, zone: Path -> bool)
    ensures Closed(Pass(w, request), zone) == Closed(w, zone)
  {
    hide Overlaps, Admissible;
    assert Pass(w, request).history == w.history;
  }

  // --------------------------------------------------------------- progress

  /** Up to `k` either `id` left the queue, its rank fell, or nothing that blocks it changed. */
  lemma {:induction false} RankOver(run: Run, i: nat, k: nat, id: nat, zone: Path -> bool) returns (j: nat)
    requires IsRun(run) && ClosedRun(run, zone) && i <= k && Has(run.state(i), id, Waiting)
    ensures i <= j <= k
    ensures || (!Has(run.state(j), id, Waiting))
            || (Rank(run.state(j), id, zone) < Rank(run.state(i), id, zone))
            || (j == k && Ahead(run.state(k), id, zone) == Ahead(run.state(i), id, zone)
                && Blockers(run.state(k), id, zone) == Blockers(run.state(i), id, zone))
    decreases k
  {
    hide Inv, Next, Enabled, Has, Ahead, Blockers, Shrinks, Closed;
    if i == k { return k; }
    j := RankOver(run, i, k - 1, id, zone);
    var w, w' := run.state(k - 1), run.state(k);
    if j == k - 1 && Has(w, id, Waiting) && Rank(w, id, zone) >= Rank(run.state(i), id, zone) {
      if !Has(w', id, Waiting) { return k; }
      assert Moves(run, k - 1);
      match run.act(k - 1) {
        case None => return k;
        case Some(step) =>
          RunInv(run, k - 1);
          assert Closed(w, zone) && Closed(w', zone);
          StepShrinks(w, step, id, zone);
          ShrinksRank(w, w', id, zone);
          return k;
      }
    }
  }

  /** The first request of the zone in the queue. */
  lemma {:induction false} FirstInZone(waiting: seq<Lease>, l: Lease, zone: Path -> bool) returns (front: Lease)
    requires Increasing(waiting) && l in waiting && zone(l.path)
    ensures front in waiting && zone(front.path) && front.id <= l.id
    ensures forall p :: p in waiting && zone(p.path) ==> front.id <= p.id
  {
    var k := 0;
    while !zone(waiting[k].path)
      invariant 0 <= k < |waiting|
      invariant forall i :: 0 <= i < k ==> !zone(waiting[i].path)
      decreases |waiting| - k
    {
      var at :| 0 <= at < |waiting| && waiting[at] == l;
      assert k < at;
      k := k + 1;
    }
    front := waiting[k];
  }

  /** The request at the front of the zone's queue is blocked by holders in the zone only. */
  lemma FrontIsFirst(w: World, id: nat, zone: Path -> bool) returns (front: Lease)
    requires Inv(w) && Closed(w, zone) && Has(w, id, Waiting) && zone(w.history[id].path)
    ensures front in Ahead(w, id, zone) && Has(w, front.id, Waiting) && w.history[front.id] == front
    ensures forall p :: p in Ahead(w, id, zone) ==> front.id <= p.id
    ensures Admissible(w.registry, front) <==> ClearOf(w.registry.active, front)
    ensures !ClearOf(w.registry.active, front) ==>
              exists a :: a in Blockers(w, id, zone) && Has(w, a.id, Active) && w.history[a.id] == a && zone(a.path)
  {
    hide Overlaps, NoLostWakeup, Exclusion;
    front := FirstInZone(w.registry.waiting, w.history[id], zone);
    AheadIsEarlier(w.registry.waiting, front);
    forall p | p in w.registry.waiting && p.id < front.id ensures !Conflicts(p, front) {
      if Overlaps(p.path, front.path) {
        OverlapsSymmetric(p.path, front.path);
        ZoneOfWaiters(w, front, p, zone);
      }
    }
    if a :| a in w.registry.active && Conflicts(a, front) {
      assert a in Blockers(w, id, zone);
      OverlapsSymmetric(a.path, front.path);
      assert Overlaps(w.history[front.id].path, w.history[a.id].path);
    }
  }

  lemma FrontStaysAdmissible(w: World, w': World, front: Lease, id: nat, zone: Path -> bool)
    requires Inv(w) && Inv(w') && Closed(w', zone) && front in Ahead(w, id, zone) && ClearOf(w.registry.active, front)
    requires forall p :: p in Ahead(w, id, zone) ==> front.id <= p.id
    requires Ahead(w', id, zone) == Ahead(w, id, zone) && Blockers(w', id, zone) == Blockers(w, id, zone)
    ensures Admissible(w'.registry, front) && Has(w', front.id, Waiting) && w'.history[front.id] == front
  {
    hide Overlaps, Closed, NoLostWakeup, Exclusion;
    assert front in Ahead(w', id, zone);
    forall a | a in w'.registry.active ensures !Conflicts(a, front) {
      assert Conflicts(a, front) ==> Blocks(w', id, zone, a);
      assert a in Blockers(w', id, zone) ==> a in Blockers(w, id, zone);
    }
    forall p | p in w'.registry.waiting && Overlaps(p.path, front.path) ensures front.id <= p.id {
      OverlapsSymmetric(p.path, front.path);
      ZoneOfWaiters(w', front, p, zone);
      assert p.id <= id ==> p in Ahead(w', id, zone);
      assert p in Ahead(w', id, zone) ==> p in Ahead(w, id, zone);
    }
    AheadIsEarlier(w'.registry.waiting, front);
  }

  /** An admissible waiter that runs leaves the queue, admitted unless cancelled. */
  lemma ResumeLeaves(w: World, id: nat)
    requires Inv(w) && Runnable(w, id) && Admissible(w.registry, w.history[id])
    ensures !Has(Next(w, Resume(id)), id, Waiting)
  {
    hide Admissible;
  }

  lemma HolderReleases(run: Run, i: nat, id: nat, zone: Path -> bool, a: Lease) returns (j: nat)
    requires IsRun(run) && ClosedRun(run, zone) && HoldersReleaseIn(run, zone) && Has(run.state(i), id, Waiting)
    requires a in Blockers(run.state(i), id, zone) && Has(run.state(i), a.id, Active)
    requires run.state(i).history[a.id] == a && zone(a.path)
    ensures j >= i
    ensures !Has(run.state(j), id, Waiting) || Rank(run.state(j), id, zone) < Rank(run.state(i), id, zone)
  {
    hide Next, Conflicts, Rank, Exclusion, NoLostWakeup, Closed;
    assert ReleasedLater(run, i, a.id);
    var k: nat :| k >= i && !Has(run.state(k), a.id, Active);
    j := RankOver(run, i, k, id, zone);
    RunInv(run, k);
  }

  lemma Progress(run: Run, i: nat, id: nat, zone: Path -> bool) returns (j: nat)
    requires IsRun(run) && ClosedRun(run, zone) && HoldersReleaseIn(run, zone) && WokenWaitersRun(run)
    requires Has(run.state(i), id, Waiting) && zone(run.state(i).history[id].path)
    ensures j >= i
    ensures !Has(run.state(j), id, Waiting) || Rank(run.state(j), id, zone) < Rank(run.state(i), id, zone)
  {
    hide Next, Admissible, Conflicts, ClearOf, Rank, Ahead, Blockers, Closed;
    var w := run.state(i);
    RunInv(run, i);
    var front := FrontIsFirst(w, id, zone);
    if !ClearOf(w.registry.active, front) {
      var a :| a in Blockers(w, id, zone) && Has(w, a.id, Active) && w.history[a.id] == a && zone(a.path);
      j := HolderReleases(run, i, id, zone, a);
    } else {
      AheadWaits(w, front, id, zone);
      assert SleepsSoundly(w, front);
      assert ResumedLater(run, i, front.id);
      var k: nat :| k >= i && run.act(k) == Some(Resume(front.id));
      j := RankOver(run, i, k, id, zone);
      if Has(run.state(j), id, Waiting) && Rank(run.state(j), id, zone) >= Rank(w, id, zone) {
        FrontResumes(run, i, k, id, zone, front);
        j := k + 1;
      }
    }
  }

  lemma AheadWaits(w: World, front: Lease, id: nat, zone: Path -> bool)
    requires front in Ahead(w, id, zone)
    ensures front in w.registry.waiting
  {
  }

  lemma FrontResumes(run: Run, i: nat, k: nat, id: nat, zone: Path -> bool, front: Lease)
    requires IsRun(run) && ClosedRun(run, zone) && i <= k && run.act(k) == Some(Resume(front.id))
    requires Has(run.state(k), id, Waiting)
    requires Inv(run.state(i)) && front in Ahead(run.state(i), id, zone) && ClearOf(run.state(i).registry.active, front)
    requires forall p :: p in Ahead(run.state(i), id, zone) ==> front.id <= p.id
    requires Ahead(run.state(k), id, zone) == Ahead(run.state(i), id, zone)
    requires Blockers(run.state(k), id, zone) == Blockers(run.state(i), id, zone)
    ensures !Has(run.state(k + 1), id, Waiting) || Rank(run.state(k + 1), id, zone) < Rank(run.state(i), id, zone)
  {
    hide Next, Admissible, Conflicts, ClearOf, Blockers, Closed;
    var u, u' := run.state(k), run.state(k + 1);
    RunInv(run, k);
    assert Closed(u, zone) && Closed(u', zone);
    FrontStaysAdmissible(run.state(i), u, front, id, zone);
    assert Moves(run, k);
    ResumeLeaves(u, front.id);
    if Has(u', id, Waiting) {
      StepShrinks(u, Resume(front.id), id, zone);
      ShrinksRank(u, u', id, zone);
      RunInv(run, k + 1);
      assert front in Ahead(u, id, zone);
    }
  }

  /** In a closed zone whose holders release, every waiter leaves the queue,
      whatever happens elsewhere. */
  lemma {:induction false} EventuallyLeaves(run: Run, i: nat, id: nat, zone: Path -> bool) returns (j: nat)
    requires IsRun(run) && ClosedRun(run, zone) && HoldersReleaseIn(run, zone) && WokenWaitersRun(run)
    requires Has(run.state(i), id, Waiting) && zone(run.state(i).history[id].path)
    ensures j >= i && !Has(run.state(j), id, Waiting)
    decreases Rank(run.state(i), id, zone)
  {
    hide Rank, Has, Next, Enabled, Closed;
    j := Progress(run, i, id, zone);
    if Has(run.state(j), id, Waiting) {
      HasRecord(run.state(i), id);
      HistoryStays(run, i, j, id);
      var k := EventuallyLeaves(run, j, id, zone);
      j := k;
    }
  }

  lemma HasRecord(w: World, id: nat)
    requires Has(w, id, Waiting) || Has(w, id, Active)
    ensures id in w.history
  {
  }

  lemma {:induction false} HistoryStays(run: Run, i: nat, j: nat, id: nat)
    requires IsRun(run) && i <= j && id in run.state(i).history
    ensures id in run.state(j).history && run.state(j).history[id] == run.state(i).history[id]
    decreases j
  {
    hide Inv, Enabled, Next;
    if i < j {
      HistoryStays(run, i, j - 1, id);
      RunInv(run, j - 1);
      assert Moves(run, j - 1);
      if run.act(j - 1).Some? { StepKeepsRecord(run.state(j - 1), run.act(j - 1).value, id); }
    }
  }

  lemma StepKeepsRecord(w: World, step: Step, id: nat)
    requires Inv(w) && Enabled(w, step) && id in w.history
    ensures id in Next(w, step).history && Next(w, step).history[id] == w.history[id]
  {
    hide Admissible, Exclusion, NoLostWakeup;
  }

  lemma StepOutOfQueue(w: World, step: Step, id: nat)
    requires Inv(w) && Enabled(w, step) && Has(w, id, Waiting) && id !in w.cancelled
    ensures Has(Next(w, step), id, Waiting) || Has(Next(w, step), id, Active)
  {
    hide Admissible;
  }

  /** With holders that release and woken waiters that run, every request that
      is queued and never cancelled is admitted. */
  lemma EveryWaiterGetsIn(run: Run, i: nat, id: nat) returns (j: nat)
    requires IsRun(run) && HoldersRelease(run) && WokenWaitersRun(run)
    requires Has(run.state(i), id, Waiting)
    requires forall k: nat :: id !in run.state(k).cancelled
    ensures j > i && Has(run.state(j), id, Active)
  {
    hide Has, Next, Enabled;
    var out := EventuallyLeaves(run, i, id, (p: Path) => true);
    j := i;
    while j < out && Has(run.state(j), id, Waiting)
      invariant i <= j <= out
      invariant Has(run.state(j), id, Waiting) || (j > i && Has(run.state(j), id, Active))
    {
      RunInv(run, j);
      assert Moves(run, j);
      match run.act(j) {
        case None =>
        case Some(step) => StepOutOfQueue(run.state(j), step, id);
      }
      j := j + 1;
    }
  }
}
