/** What the registry promises to those who ask, said of paths and of the
    exclusive flags alone: who may hold leases together, which request is
    admitted when, and why a sleeping one has to wait. */
module WorkspaceExclusion {
  import opened WorkspacePaths
  import opened WorkspaceRegistry
  import opened WorkspaceAdmission
  import opened Wrappers

  /** Holders of one workspace, or of a workspace and something inside it, all share it. */
  lemma OverlappingHoldersShare(ws: seq<World>, i: nat, a: Lease, b: Lease)
    requires Execution(ws) && i < |ws|
    requires a in ws[i].registry.active && b in ws[i].registry.active && a.id != b.id
    requires a.path <= b.path || b.path <= a.path
    ensures !a.exclusive && !b.exclusive
  {
    hide Execution, Conflicts;
    ReachableInv(ws);
    ConflictMeans(a, b);
  }

  lemma AdmissibleMeans(r: Registry, request: Lease)
    requires Increasing(r.waiting) && request in r.waiting
    ensures Admissible(r, request) <==>
      && (forall a :: a in r.active ==>
            (!a.exclusive && !request.exclusive) || (!(a.path <= request.path) && !(request.path <= a.path)))
      && (forall p :: p in r.waiting && p.id < request.id ==>
            (!p.exclusive && !request.exclusive) || (!(p.path <= request.path) && !(request.path <= p.path)))
  {
    hide Conflicts, ClearAhead;
    AheadIsEarlier(r.waiting, request);
    forall l: Lease ensures Conflicts(l, request) <==>
      (l.exclusive || request.exclusive) && (l.path <= request.path || request.path <= l.path)
    {
      ConflictMeans(l, request);
    }
  }

  /** What becomes of a queued request when it takes the lock. */
  lemma PassMeans(w: World, request: Lease)
    requires QueueInv(w.registry) && HistoryInv(w) && request in w.registry.waiting
    ensures var w' := Pass(w, request);
      && (Has(w', request.id, Gone) <==> request.id in w.cancelled)
      && (Has(w', request.id, Active) <==> request.id !in w.cancelled && Admissible(w.registry, request))
      && (Has(w', request.id, Waiting) ==> request.id in w'.asleep && w'.asleep[request.id] == w.registry.generation)
  {
    hide Admissible;
    WaiterRecorded(w, request);
  }

  /** A request is refused without an absolute path or with 128 waiting. Any other
      is admitted at once exactly when its context lives and whoever holds or
      waits for a workspace that contains it, or lies inside it, only shares it,
      as the request does. */
  lemma ArrivalIsAnswered(ws: seq<World>, path: Option<Path>, exclusive: bool, expired: bool)
    requires Execution(ws)
    ensures var w := ws[|ws| - 1];
      var id := w.registry.next + 1;
      var w' := Next(w, Arrive(path, exclusive, expired));
      if path.None? || |w.registry.waiting| >= 128 then w' == w
      else
        && id in w'.history && w'.history[id] == Lease(id, path.value, exclusive)
        && (Has(w', id, Gone) <==> expired)
        && (Has(w', id, Active) <==>
              !expired && forall l :: l in w.registry.active + w.registry.waiting ==>
                (!l.exclusive && !exclusive) || (!(l.path <= path.value) && !(path.value <= l.path)))
  {
    hide Pass, Admissible, Conflicts;
    ReachableInv(ws);
    var w := ws[|ws| - 1];
    if path.Some? && |w.registry.waiting| < 128 {
      QueuedIsAnswered(w, Lease(w.registry.next + 1, path.value, exclusive), expired);
    }
  }

  lemma QueuedIsAnswered(w: World, request: Lease, expired: bool)
    requires Inv(w) && request.id == w.registry.next + 1 && |w.registry.waiting| < WAITER_BUDGET
    ensures var w' := Pass(Queued(w, request, expired), request);
      && request.id in w'.history && w'.history[request.id] == request
      && (Has(w', request.id, Gone) <==> expired)
      && (Has(w', request.id, Active) <==>
            !expired && forall l :: l in w.registry.active + w.registry.waiting ==>
              (!l.exclusive && !request.exclusive) || (!(l.path <= request.path) && !(request.path <= l.path)))
  {
    hide Pass, Admissible, Conflicts, Exclusion, NoLostWakeup;
    var q := Queued(w, request, expired);
    QueuedKeepsQueue(w, request, expired);
    QueuedKeepsHistory(w, request, expired);
    PassMeans(q, request);
    AdmissibleMeans(q.registry, request);
    PassHistory(q, request);
    EarlierWaiters(w, request, expired);
    assert !expired ==> request.id !in q.cancelled;
  }

  lemma EarlierWaiters(w: World, request: Lease, expired: bool)
    requires HistoryInv(w) && request.id == w.registry.next + 1
    ensures forall l :: l in w.registry.waiting <==> l in Queued(w, request, expired).registry.waiting && l.id < request.id
  {
  }

  lemma PassHistory(w: World, request: Lease)
    ensures Pass(w, request).history == w.history
  {
  }

  /** A woken request is admitted exactly when it was not cancelled and all holders
      and all who came before it, as far as they touch its workspace, share it. */
  lemma WakeupIsAnswered(ws: seq<World>, id: nat)
    requires Execution(ws) && Runnable(ws[|ws| - 1], id)
    ensures var w := ws[|ws| - 1];
      var request := w.history[id];
      var w' := Next(w, Resume(id));
      && (Has(w', id, Gone) <==> id in w.cancelled)
      && (Has(w', id, Active) <==>
            && id !in w.cancelled
            && (forall a :: a in w.registry.active ==>
                  (!a.exclusive && !request.exclusive) || (!(a.path <= request.path) && !(request.path <= a.path)))
            && (forall p :: p in w.registry.waiting && p.id < id ==>
                  (!p.exclusive && !request.exclusive) || (!(p.path <= request.path) && !(request.path <= p.path))))
  {
    hide Pass, Admissible, Conflicts;
    ReachableInv(ws);
    var w := ws[|ws| - 1];
    PassMeans(w, w.history[id]);
    AdmissibleMeans(w.registry, w.history[id]);
  }

  /** Whoever sleeps on the current channel waits for somebody: for a holder, or
      for one that came earlier, of an overlapping workspace that one of both
      wants for itself. */
  lemma SleeperIsBlocked(ws: seq<World>, i: nat, l: Lease)
    requires Execution(ws) && i < |ws| && l in ws[i].registry.waiting
    requires l.id in ws[i].asleep && ws[i].asleep[l.id] == ws[i].registry.generation
    ensures exists b :: b in ws[i].registry.active + ws[i].registry.waiting
              && (b in ws[i].registry.active || b.id < l.id)
              && (b.path <= l.path || l.path <= b.path) && (b.exclusive || l.exclusive)
  {
    hide Execution, Admissible;
    ReachableInv(ws);
    var r := ws[i].registry;
    AdmissibleMeans(r, l);
    assert !Admissible(r, l);
    if a :| a in r.active && (a.exclusive || l.exclusive) && (a.path <= l.path || l.path <= a.path) {
      assert a in r.active + r.waiting;
    } else {
      var p :| p in r.waiting && p.id < l.id && (p.exclusive || l.exclusive) && (p.path <= l.path || l.path <= p.path);
      assert p in r.active + r.waiting;
    }
  }

  /** While somebody holds a lease, nobody who asked earlier, for an overlapping
      workspace that one of both wants for itself, is still waiting or holding. */
  lemma EarlierIsGone(ws: seq<World>, i: nat, earlier: nat, later: nat)
    requires Execution(ws) && i < |ws| && earlier < later && earlier in ws[i].history && Has(ws[i], later, Active)
    requires var a, b := ws[i].history[earlier], ws[i].history[later];
      (a.exclusive || b.exclusive) && (a.path <= b.path || b.path <= a.path)
    ensures Has(ws[i], earlier, Gone)
  {
    hide Execution, Conflicts;
    AdmittedInArrivalOrder(ws);
    ConflictMeans(ws[i].history[earlier], ws[i].history[later]);
  }
}
