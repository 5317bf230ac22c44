/** Every interleaving of requests, wakeups, cancellations and releases of one
    workspace registry. A waiter between two passes of `acquire`'s loop is a
    record of the generation it sleeps on. */
module WorkspaceAdmission {
  import opened WorkspacePaths
  import opened WorkspaceRegistry
  import opened Wrappers

  datatype Fate = Waiting | Active | Gone

  /** `history` and `fate` record every request ever queued. `Gone` is released,
      or cancelled before admission. */
  datatype World = World(
    registry: Registry,
    asleep: map<nat, nat>,
    cancelled: set<nat>,
    history: map<nat, Lease>,
    fate: map<nat, Fate>)

  datatype Step =
    | Arrive(path: Option<Path>, exclusive: bool, expired: bool)
    | Cancel(id: nat)
    | Resume(id: nat)
    | Release(id: nat)

  const START := World(Registry(0, [], [], 0), map[], {}, map[], map[])

  predicate Has(w: World, id: nat, fate: Fate) {
    id in w.history && id in w.fate && w.fate[id] == fate
  }

  /** The select in `acquire` has fired: the channel was closed, or the context ended. */
  predicate Runnable(w: World, id: nat) {
    Has(w, id, Waiting) && id in w.asleep &&
    (w.asleep[id] < w.registry.generation || id in w.cancelled)
  }

  predicate Enabled(w: World, step: Step) {
    match step
    case Arrive(_, _, _) => true
    case Cancel(id) => Has(w, id, Waiting)
    case Resume(id) => Runnable(w, id)
    case Release(id) => Has(w, id, Active)
  }

  /** One pass of the loop by a queued request, with its book-keeping. */
  function Pass(w: World, request: Lease): World {
    var (registry, outcome) := Attempt(w.registry, request, request.id in w.cancelled);
    var w' := w.(registry := registry);
    match outcome
    case Asleep(id, g) => w'.(asleep := w.asleep[id := g])
    case Admitted(_) => w'.(asleep := w.asleep - {request.id}, fate := w.fate[request.id := Active])
    case _ => w'.(asleep := w.asleep - {request.id}, fate := w.fate[request.id := Gone])
  }

  /** Joining the end of the queue, before the first pass. */
  function Queued(w: World, request: Lease, expired: bool): World {
    World(w.registry.(next := w.registry.next + 1, waiting := w.registry.waiting + [request]),
          w.asleep,
          if expired then w.cancelled + {request.id} else w.cancelled,
          w.history[request.id := request],
          w.fate[request.id := Waiting])
  }

  function Next(w: World, step: Step): World
    requires Enabled(w, step)
  {
    match step
    case Arrive(path, exclusive, expired) =>
      if path.None? || |w.registry.waiting| >= WAITER_BUDGET then w
      else
        var request := Lease(w.registry.next + 1, path.value, exclusive);
        Pass(Queued(w, request, expired), request)
    case Cancel(id) => w.(cancelled := w.cancelled + {id})
    case Resume(id) => Pass(w, w.history[id])
    case Release(id) => w.(registry := Released(w.registry, id), fate := w.fate[id := Gone])
  }

  /** The steps run exactly the critical sections of the registry object. */
  lemma StepsAreCriticalSections(w: World, step: Step)
    requires Inv(w) && Enabled(w, step)
    ensures step.Arrive? ==>
              Next(w, step).registry == Enter(w.registry, step.path, step.exclusive, step.expired).0
    ensures step.Resume? ==>
              Next(w, step).registry == Attempt(w.registry, w.history[step.id], step.id in w.cancelled).0
    ensures step.Release? ==> Next(w, step).registry == Released(w.registry, step.id)
    ensures step.Cancel? ==> Next(w, step).registry == w.registry
  {
    hide Admissible;
  }

  // -------------------------------------------------------------- invariant

  ghost predicate QueueInv(r: Registry) {
    && |r.waiting| <= WAITER_BUDGET
    && Increasing(r.waiting)
    && DistinctIds(r.active)
  }

  ghost predicate Exclusion(r: Registry) {
    forall a, b :: a in r.active && b in r.active && a.id != b.id ==> !Conflicts(a, b)
  }

  ghost predicate Recorded(w: World, leases: seq<Lease>, fate: Fate) {
    && (forall l :: l in leases ==> l.id in w.history && w.history[l.id] == l && Has(w, l.id, fate))
    && (forall id :: Has(w, id, fate) ==> w.history[id] in leases)
  }

  ghost predicate HistoryInv(w: World) {
    && (forall id :: id in w.history <==> 1 <= id <= w.registry.next)
    && (forall id :: id in w.history ==> w.history[id].id == id)
    && w.fate.Keys == w.history.Keys
    && w.cancelled <= w.history.Keys
    && Recorded(w, w.registry.waiting, Waiting)
    && Recorded(w, w.registry.active, Active)
  }

  /** Sleeping on an already closed channel, or correctly blocked. */
  ghost predicate SleepsSoundly(w: World, l: Lease) {
    && l.id in w.asleep
    && w.asleep[l.id] <= w.registry.generation
    && (w.asleep[l.id] == w.registry.generation ==> !Admissible(w.registry, l))
  }

  /** No waiter, `but` excepted, sleeps on the current channel while its request is admissible. */
  ghost predicate NoLostWakeupBut(w: World, but: nat) {
    && (forall id :: id in w.asleep && id != but ==> Has(w, id, Waiting))
    && (forall l :: l in w.registry.waiting && l.id != but ==> SleepsSoundly(w, l))
  }

  ghost predicate NoLostWakeup(w: World) {
    && (forall id :: id in w.asleep ==> Has(w, id, Waiting))
    && (forall l :: l in w.registry.waiting ==> SleepsSoundly(w, l))
  }

  ghost predicate Inv(w: World) {
    QueueInv(w.registry) && HistoryInv(w) && Exclusion(w.registry) && NoLostWakeup(w)
  }

  ghost predicate Follows(w: World, w': World) {
    exists step :: Enabled(w, step) && w' == Next(w, step)
  }

  ghost predicate Execution(ws: seq<World>) {
    |ws| > 0 && ws[0] == START &&
    forall i :: 0 <= i < |ws| - 1 ==> Follows(ws[i], ws[i + 1])
  }

  // ----------------------------------------------------------- preservation

  /** With increasing ids, the scan of the queue looks at exactly the earlier requests. */
  lemma {:induction false} AheadIsEarlier(waiting: seq<Lease>, request: Lease)
    requires Increasing(waiting) && request in waiting
    ensures ClearAhead(waiting, request) <==>
            forall p :: p in waiting && p.id < request.id ==> !Conflicts(p, request)
  {
    assert waiting == [waiting[0]] + waiting[1..];
    if waiting[0].id != request.id {
      AheadIsEarlier(waiting[1..], request);
      assert waiting[0].id < request.id;
    } else {
      assert forall p :: p in waiting ==> waiting[0].id <= p.id;
    }
  }

  /** What leaving the queue does to it. */
  lemma LeaveQueue(r: Registry, id: nat)
    requires QueueInv(r)
    ensures var rest := Without(r.waiting, id);
            Increasing(rest) && forall l :: l in rest <==> l in r.waiting && l.id != id
  {
    WithoutOrdered(r.waiting, id);
    WithoutMembers(r.waiting, id);
  }

  lemma SameIdSameWaiter(r: Registry, a: Lease, b: Lease)
    requires QueueInv(r) && a in r.waiting && b in r.waiting && a.id == b.id
    ensures a == b
  {
  }

  /** Moving a waiter to the active set unblocks nobody. */
  lemma AdmissionUnblocksNobody(r: Registry, r': Registry, request: Lease, l: Lease)
    requires QueueInv(r) && request in r.waiting
    requires r' == r.(waiting := Without(r.waiting, request.id), active := r.active + [request])
    requires l in r'.waiting && Admissible(r', l)
    ensures Admissible(r, l)
  {
    LeaveQueue(r, request.id);
    AheadIsEarlier(r.waiting, l);
    AheadIsEarlier(r'.waiting, l);
    forall p | p in r.waiting && p.id < l.id ensures !Conflicts(p, l) {
      if p.id == request.id {
        SameIdSameWaiter(r, p, request);
        assert p in r'.active;
      }
    }
    forall a | a in r.active ensures !Conflicts(a, l) {
      assert a in r'.active;
    }
  }

  lemma PassKeepsQueue(w: World, request: Lease)
    requires QueueInv(w.registry) && HistoryInv(w) && request in w.registry.waiting
    ensures QueueInv(Pass(w, request).registry)
  {
    hide Admissible, Conflicts;
    LeaveQueue(w.registry, request.id);
    assert forall a :: a in w.registry.active ==> a.id != request.id;
  }

  lemma PassKeepsExclusion(w: World, request: Lease)
    requires Exclusion(w.registry)
    ensures Exclusion(Pass(w, request).registry)
  {
    hide Overlaps, ClearAhead;
    if Admissible(w.registry, request) {
      forall a | a in w.registry.active ensures !Conflicts(a, request) && !Conflicts(request, a) {
        OverlapsSymmetric(a.path, request.path);
      }
    }
  }

  lemma RecordedAfterLeaving(w: World, w': World, leases: seq<Lease>, rest: seq<Lease>, id: nat, fate: Fate)
    requires Recorded(w, leases, fate) && (forall k :: k in w.history ==> w.history[k].id == k)
    requires w'.history == w.history && id in w.fate && id in w'.fate
    requires w'.fate == w.fate[id := w'.fate[id]] && w'.fate[id] != fate
    requires forall l :: l in rest <==> l in leases && l.id != id
    ensures Recorded(w', rest, fate)
  {
  }

  lemma RecordedAfterJoining(w: World, w': World, leases: seq<Lease>, request: Lease, fate: Fate)
    requires Recorded(w, leases, fate)
    requires w'.history == w.history[request.id := request] && w'.fate == w.fate[request.id := fate]
    requires !Has(w, request.id, fate)
    ensures Recorded(w', leases + [request], fate)
  {
    forall l | l in leases ensures l.id != request.id {
      assert Has(w, l.id, fate);
    }
  }

  lemma RecordedElsewhere(w: World, w': World, leases: seq<Lease>, request: Lease, fate: Fate)
    requires Recorded(w, leases, fate)
    requires w'.history == w.history[request.id := request] && request.id in w'.fate
    requires w'.fate == w.fate[request.id := w'.fate[request.id]] && w'.fate[request.id] != fate
    requires !Has(w, request.id, fate)
    ensures Recorded(w', leases, fate)
  {
  }

  lemma RecordedUnchanged(w: World, w': World, leases: seq<Lease>, fate: Fate)
    requires Recorded(w, leases, fate) && w'.history == w.history && w'.fate == w.fate
    ensures Recorded(w', leases, fate)
  {
  }

  lemma WaiterRecorded(w: World, request: Lease)
    requires HistoryInv(w) && request in w.registry.waiting
    ensures request.id in w.history && w.history[request.id] == request && Has(w, request.id, Waiting)
  {
  }

  lemma PassKeepsHistory(w: World, request: Lease)
    requires QueueInv(w.registry) && HistoryInv(w) && request in w.registry.waiting
    ensures HistoryInv(Pass(w, request))
  {
    hide Admissible, QueueInv, Recorded;
    LeaveQueue(w.registry, request.id);
    WaiterRecorded(w, request);
    var w', r, r' := Pass(w, request), w.registry, Pass(w, request).registry;
    if w'.fate[request.id] == Waiting {
      RecordedUnchanged(w, w', r.waiting, Waiting);
      RecordedUnchanged(w, w', r.active, Active);
    } else {
      assert w'.history == w.history[request.id := request];
      RecordedAfterLeaving(w, w', r.waiting, r'.waiting, request.id, Waiting);
      if w'.fate[request.id] == Active {
        RecordedAfterJoining(w, w', r.active, request, Active);
      } else {
        RecordedElsewhere(w, w', r.active, request, Active);
      }
    }
  }

  /** What a pass of one request does to the rest of the registry. */
  lemma PassOutcomes(w: World, request: Lease, id: nat)
    requires id != request.id
    ensures var r, r' := w.registry, Pass(w, request).registry;
      || r' == r.(waiting := Without(r.waiting, request.id), generation := r.generation + 1)
      || r' == r
      || (Admissible(r, request) && r' == r.(waiting := Without(r.waiting, request.id), active := r.active + [request]))
    ensures id in w.asleep ==> id in Pass(w, request).asleep && Pass(w, request).asleep[id] == w.asleep[id]
    ensures Pass(w, request).registry.waiting == w.registry.waiting
         || Pass(w, request).registry.waiting == Without(w.registry.waiting, request.id)
  {
    hide Admissible, Without;
  }

  /** A pass of one request leaves the other waiters asleep for good reason. */
  lemma OtherSleepsOn(w: World, request: Lease, l: Lease)
    requires QueueInv(w.registry) && request in w.registry.waiting
    requires NoLostWakeupBut(w, request.id)
    requires l in Pass(w, request).registry.waiting && l.id != request.id
    ensures SleepsSoundly(Pass(w, request), l)
  {
    hide Admissible, Pass, QueueInv, Without;
    PassOutcomes(w, request, l.id);
    LeaveQueue(w.registry, request.id);
    assert SleepsSoundly(w, l);
    var r, r' := w.registry, Pass(w, request).registry;
    if r' != r && r'.generation == r.generation && Admissible(r', l) {
      AdmissionUnblocksNobody(r, r', request, l);
    }
  }

  /** The passed request itself sleeps only where it was not admissible. */
  lemma PassedSleepsSoundly(w: World, request: Lease, l: Lease)
    requires QueueInv(w.registry) && request in w.registry.waiting
    requires l in Pass(w, request).registry.waiting && l.id == request.id
    ensures SleepsSoundly(Pass(w, request), l)
  {
    hide Admissible;
    LeaveQueue(w.registry, request.id);
    SameIdSameWaiter(w.registry, l, request);
  }

  lemma SleepersWait(w: World, request: Lease)
    requires QueueInv(w.registry) && HistoryInv(w) && request in w.registry.waiting
    requires NoLostWakeupBut(w, request.id)
    ensures forall id :: id in Pass(w, request).asleep ==> Has(Pass(w, request), id, Waiting)
  {
    hide Admissible, SleepsSoundly;
    LeaveQueue(w.registry, request.id);
  }

  lemma PassKeepsWakeup(w: World, request: Lease)
    requires QueueInv(w.registry) && HistoryInv(w) && request in w.registry.waiting
    requires NoLostWakeupBut(w, request.id)
    ensures NoLostWakeup(Pass(w, request))
  {
    hide Pass, QueueInv, HistoryInv, SleepsSoundly, NoLostWakeupBut;
    SleepersWait(w, request);
    forall l | l in Pass(w, request).registry.waiting ensures SleepsSoundly(Pass(w, request), l) {
      if l.id == request.id {
        PassedSleepsSoundly(w, request, l);
      } else {
        OtherSleepsOn(w, request, l);
      }
    }
  }

  lemma PassKeeps(w: World, request: Lease)
    requires QueueInv(w.registry) && Exclusion(w.registry) && HistoryInv(w)
    requires NoLostWakeupBut(w, request.id) && request in w.registry.waiting
    ensures Inv(Pass(w, request))
  {
    PassKeepsQueue(w, request);
    PassKeepsExclusion(w, request);
    PassKeepsHistory(w, request);
    PassKeepsWakeup(w, request);
  }

  lemma QueuedKeepsHistory(w: World, request: Lease, expired: bool)
    requires HistoryInv(w) && request.id == w.registry.next + 1
    ensures HistoryInv(Queued(w, request, expired))
  {
    hide Recorded;
    var q := Queued(w, request, expired);
    RecordedAfterJoining(w, q, w.registry.waiting, request, Waiting);
    RecordedElsewhere(w, q, w.registry.active, request, Active);
  }

  lemma QueuedKeepsQueue(w: World, request: Lease, expired: bool)
    requires QueueInv(w.registry) && HistoryInv(w)
    requires request.id == w.registry.next + 1 && |w.registry.waiting| < WAITER_BUDGET
    ensures QueueInv(Queued(w, request, expired).registry)
  {
    assert forall l :: l in w.registry.waiting ==> l.id in w.history;
  }

  lemma QueuedKeepsWakeup(w: World, request: Lease, expired: bool)
    requires Inv(w) && request.id == w.registry.next + 1 && |w.registry.waiting| < WAITER_BUDGET
    ensures NoLostWakeupBut(Queued(w, request, expired), request.id)
  {
    hide Conflicts;
    var q := Queued(w, request, expired);
    QueuedKeepsQueue(w, request, expired);
    forall l | l in q.registry.waiting && l.id != request.id ensures SleepsSoundly(q, l) {
      assert SleepsSoundly(w, l);
      AheadIsEarlier(w.registry.waiting, l);
      AheadIsEarlier(q.registry.waiting, l);
    }
  }

  lemma ArriveKeeps(w: World, request: Lease, expired: bool)
    requires Inv(w) && request.id == w.registry.next + 1 && |w.registry.waiting| < WAITER_BUDGET
    ensures Inv(Pass(Queued(w, request, expired), request))
  {
    hide Admissible, Recorded, SleepsSoundly;
    QueuedKeepsQueue(w, request, expired);
    QueuedKeepsHistory(w, request, expired);
    QueuedKeepsWakeup(w, request, expired);
    assert request in Queued(w, request, expired).registry.waiting;
    PassKeeps(Queued(w, request, expired), request);
  }

  lemma ReleaseKeepsRegistry(w: World, id: nat)
    requires Inv(w) && Has(w, id, Active)
    ensures var r, r' := w.registry, Released(w.registry, id);
            && QueueInv(r') && Exclusion(r')
            && r' == r.(active := r'.active, generation := r.generation + 1)
            && forall l :: l in r'.active <==> l in r.active && l.id != id
  {
    hide Admissible, Conflicts;
    var r := w.registry;
    var k :| 0 <= k < |r.active| && r.active[k] == w.history[id];
    WithoutOrdered(r.active, id);
    WithoutMembers(r.active, id);
  }

  lemma ReleaseKeeps(w: World, id: nat)
    requires Inv(w) && Has(w, id, Active)
    ensures Inv(Next(w, Release(id)))
  {
    hide Admissible, Conflicts, QueueInv, Exclusion, Released;
    var r, w' := w.registry, Next(w, Release(id));
    ReleaseKeepsRegistry(w, id);
    RecordedAfterLeaving(w, w', r.active, w'.registry.active, id, Active);
    forall l | l in r.waiting ensures SleepsSoundly(w', l) && l.id != id {
      assert SleepsSoundly(w, l);
    }
  }

  lemma StepKeepsInv(w: World, step: Step)
    requires Inv(w) && Enabled(w, step)
    ensures Inv(Next(w, step))
  {
    hide Admissible, Pass, Conflicts;
    match step
    case Arrive(path, exclusive, expired) =>
      if path.Some? && |w.registry.waiting| < WAITER_BUDGET {
        ArriveKeeps(w, Lease(w.registry.next + 1, path.value, exclusive), expired);
      }
    case Cancel(id) =>
      assert forall l :: l in w.registry.waiting ==> SleepsSoundly(w, l) && SleepsSoundly(Next(w, step), l);
    case Resume(id) =>
      PassKeeps(w, w.history[id]);
    case Release(id) =>
      ReleaseKeeps(w, id);
  }

  /** Every reachable state keeps admitted leases compatible, forgets no
      request, and loses no wakeup, although admission itself wakes nobody. */
  lemma {:induction false} ReachableInv(ws: seq<World>)
    requires Execution(ws)
    ensures forall i :: 0 <= i < |ws| ==> Inv(ws[i])
  {
    hide Inv, Next, Enabled;
    if |ws| == 1 {
      StartInv();
    } else {
      var before := ws[..|ws| - 1];
      assert forall i :: 0 <= i < |before| ==> before[i] == ws[i];
      ReachableInv(before);
      var w := ws[|ws| - 2];
      assert Follows(ws[|ws| - 2], ws[|ws| - 1]);
      var step :| Enabled(w, step) && ws[|ws| - 1] == Next(w, step);
      assert Inv(before[|ws| - 2]);
      StepKeepsInv(w, step);
    }
  }

  lemma StartInv()
    ensures Inv(START)
  {
  }

  // ----------------------------------------------------- order of admission

  /** Nobody holds a lease while an earlier conflicting request is still open. */
  ghost predicate Fifo(w: World) {
    forall earlier, later ::
      && Has(w, later, Active) && earlier in w.history && earlier < later
      && Conflicts(w.history[earlier], w.history[later])
      ==> Has(w, earlier, Gone)
  }

  lemma PassIsFifo(w: World, request: Lease, earlier: nat)
    requires QueueInv(w.registry) && HistoryInv(w) && request in w.registry.waiting
    requires Admissible(w.registry, request)
    requires earlier in w.history && earlier < request.id && Conflicts(w.history[earlier], request)
    ensures Has(w, earlier, Gone)
  {
    hide Conflicts;
    AheadIsEarlier(w.registry.waiting, request);
    var e := w.history[earlier];
    assert e !in w.registry.waiting && e !in w.registry.active;
  }

  lemma PassKeepsFifo(w: World, request: Lease)
    requires QueueInv(w.registry) && HistoryInv(w) && request in w.registry.waiting && Fifo(w)
    ensures Fifo(Pass(w, request))
  {
    hide Conflicts, Admissible;
    WaiterRecorded(w, request);
    var w' := Pass(w, request);
    forall earlier, later |
      && Has(w', later, Active) && earlier in w'.history && earlier < later
      && Conflicts(w'.history[earlier], w'.history[later])
      ensures Has(w', earlier, Gone)
    {
      if later == request.id {
        PassIsFifo(w, request, earlier);
      } else {
        assert Has(w, later, Active) && Has(w, earlier, Gone);
      }
    }
  }

  lemma QueuedKeepsFifo(w: World, request: Lease, expired: bool)
    requires HistoryInv(w) && Fifo(w) && request.id == w.registry.next + 1
    ensures Fifo(Queued(w, request, expired)) && request in Queued(w, request, expired).registry.waiting
  {
    hide Conflicts;
    var q := Queued(w, request, expired);
    assert forall id: nat :: Has(q, id, Active) ==> Has(w, id, Active) && id < request.id;
  }

  lemma OthersKeepFifo(w: World, step: Step)
    requires Fifo(w) && Enabled(w, step) && (step.Cancel? || step.Release?)
    ensures Fifo(Next(w, step))
  {
    hide Conflicts;
    assert forall id: nat :: Has(Next(w, step), id, Active) ==> Has(w, id, Active);
  }

  lemma StepKeepsFifo(w: World, step: Step)
    requires Inv(w) && Fifo(w) && Enabled(w, step)
    ensures Fifo(Next(w, step))
  {
    hide Conflicts, Admissible, Pass, Queued, Exclusion, NoLostWakeup, Fifo;
    match step
    case Arrive(path, exclusive, expired) =>
      if path.Some? && |w.registry.waiting| < WAITER_BUDGET {
        var request := Lease(w.registry.next + 1, path.value, exclusive);
        QueuedKeepsQueue(w, request, expired);
        QueuedKeepsHistory(w, request, expired);
        QueuedKeepsFifo(w, request, expired);
        PassKeepsFifo(Queued(w, request, expired), request);
      }
    case Resume(id) =>
      PassKeepsFifo(w, w.history[id]);
    case _ =>
      OthersKeepFifo(w, step);
  }

  /** Over whole runs, conflicting requests are admitted in arrival order: at
      every moment each request that conflicts with a holder and arrived before
      it has been released or cancelled, and stays so. */
  lemma {:induction false} AdmittedInArrivalOrder(ws: seq<World>)
    requires Execution(ws)
    ensures forall i :: 0 <= i < |ws| ==> Fifo(ws[i])
    ensures forall i, j, id :: 0 <= i <= j < |ws| && Has(ws[i], id, Gone) ==> Has(ws[j], id, Gone)
  {
    hide Inv, Next, Enabled, Fifo, Has;
    if |ws| == 1 {
      assert Fifo(START) by { StartFifo(); }
    } else {
      var n := |ws| - 2;
      var before := ws[..n + 1];
      assert forall i :: 0 <= i < |before| ==> before[i] == ws[i];
      AdmittedInArrivalOrder(before);
      ReachableInv(before);
      var w, w' := ws[n], ws[n + 1];
      assert Follows(ws[n], ws[n + 1]);
      var step :| Enabled(w, step) && w' == Next(w, step);
      assert before[n] == w && Fifo(before[n]) && Inv(before[n]);
      StepKeepsFifo(w, step);
      forall i, j, id | 0 <= i <= j < |ws| && Has(ws[i], id, Gone) ensures Has(ws[j], id, Gone) {
        if j == n + 1 && i <= n {
          assert Has(before[i], id, Gone);
          assert Has(before[n], id, Gone);
          GoneForever(w, step, id);
        } else if j <= n {
          assert Has(before[i], id, Gone) && Has(before[j], id, Gone);
        }
      }
    }
  }

  lemma StartFifo()
    ensures Fifo(START)
  {
  }

  lemma GoneForever(w: World, step: Step, id: nat)
    requires Inv(w) && Enabled(w, step) && Has(w, id, Gone)
    ensures Has(Next(w, step), id, Gone)
  {
    hide Admissible;
  }
}
