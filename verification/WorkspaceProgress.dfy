/** Owners of one or two workspaces make progress: where no reachable state is
    stuck, no owner starves either. A holder of a first workspace releases it only
    after its second was admitted, so release and admission are proved together,
    from the workspaces that sort last to those that sort first. */
module WorkspaceProgress {
  import opened Order
  import opened WorkspacePaths
  import opened WorkspaceRegistry
  import opened WorkspaceAdmission
  import opened WorkspaceActions
  import opened WorkspaceDeadlock
  import opened WorkspaceLiveness
  import opened Wrappers

  /** An infinite run of owners; `None` lets time pass. */
  datatype OwnerRun = OwnerRun(state: nat -> System, act: nat -> Option<Move>)

  ghost predicate IsOwnerRun(universe: set<Path>, run: OwnerRun) {
    run.state(0) == IDLE && forall i: nat :: Acts(universe, run, i)
  }

  ghost predicate Acts(universe: set<Path>, run: OwnerRun, i: nat) {
    match run.act(i)
    case None => run.state(i + 1) == run.state(i)
    case Some(move) => CanMove(universe, run.state(i), move) && run.state(i + 1) == After(universe, run.state(i), move)
  }

  predicate Requests(act: Option<Move>, o: nat) {
    act.Some? && act.value.Request? && act.value.o == o
  }

  predicate Wants(s: System, o: nat) {
    o in s.owners && s.owners[o].pending.None? && !s.owners[o].closing && |s.owners[o].held| < |s.owners[o].plan|
  }

  predicate Woken(s: System, o: nat) {
    o in s.owners && s.owners[o].pending.Some? && Runnable(s.world, s.owners[o].pending.value)
  }

  predicate MayDrop(s: System, o: nat) {
    o in s.owners && Finished(s.owners[o]) && s.owners[o].held != []
  }

  ghost predicate RequestsLater(run: OwnerRun, i: nat, o: nat) {
    exists j: nat :: j >= i && Requests(run.act(j), o)
  }

  ghost predicate WakesLater(run: OwnerRun, i: nat, o: nat) {
    exists j: nat :: j >= i && run.act(j) == Some(Wake(o))
  }

  ghost predicate DropsLater(run: OwnerRun, i: nat, o: nat) {
    exists j: nat :: j >= i && run.act(j) == Some(Drop(o))
  }

  /** Each owner goes on when it can: it asks for its next workspace, takes the
      lock when woken, and finishes its work once it has the whole plan. Nothing
      is assumed of an owner that still waits for its second workspace. */
  ghost predicate Fair(run: OwnerRun) {
    && (forall i: nat, o: nat :: Wants(run.state(i), o) ==> RequestsLater(run, i, o))
    && (forall i: nat, o: nat :: Woken(run.state(i), o) ==> WakesLater(run, i, o))
    && (forall i: nat, o: nat :: MayDrop(run.state(i), o) ==> DropsLater(run, i, o))
  }

  ghost predicate Good(universe: set<Path>) {
    Unforked(universe) && Uninterrupted(universe)
  }

  // ---------------------------------------------------- the registry's own run

  function StepOf(s: System, act: Option<Move>): Option<Step> {
    if act.None? || act.value.o !in s.owners then None
    else
      var owner := s.owners[act.value.o];
      match act.value
      case Request(_, expired) =>
        if |owner.held| < |owner.plan| then Some(Arrive(Some(owner.plan[|owner.held|]), owner.exclusive, expired)) else None
      case Wake(_) => if owner.pending.Some? then Some(Resume(owner.pending.value)) else None
      case Expire(_) => if owner.pending.Some? then Some(Cancel(owner.pending.value)) else None
      case Drop(_) => if owner.held != [] then Some(Release(owner.held[|owner.held| - 1])) else None
      case _ => None
  }

  ghost function RegistryRun(run: OwnerRun): Run {
    Run((i: nat) => run.state(i).world, (i: nat) => StepOf(run.state(i), run.act(i)))
  }

  lemma {:induction false} RunKeeps(universe: set<Path>, run: OwnerRun, i: nat)
    requires IsOwnerRun(universe, run)
    ensures SystemInv(universe, run.state(i))
  {
    hide SystemInv, CanMove, After;
    if i == 0 {
      IdleInv(universe);
    } else {
      RunKeeps(universe, run, i - 1);
      assert Acts(universe, run, i - 1);
      if run.act(i - 1).Some? { MoveKeeps(universe, run.state(i - 1), run.act(i - 1).value); }
    }
  }

  lemma MoveIsStep(universe: set<Path>, s: System, move: Move)
    requires CanMove(universe, s, move)
    ensures match StepOf(s, Some(move))
      case None => After(universe, s, move).world == s.world
      case Some(step) => Enabled(s.world, step) && After(universe, s, move).world == Next(s.world, step)
  {
    hide Next, Admits;
  }

  lemma RegistryRunIsRun(universe: set<Path>, run: OwnerRun)
    requires IsOwnerRun(universe, run)
    ensures IsRun(RegistryRun(run))
  {
    hide CanMove, After, Next, Enabled, StepOf;
    var r := RegistryRun(run);
    forall i: nat ensures Moves(r, i) {
      assert Acts(universe, run, i);
      match run.act(i)
      case None => assert StepOf(run.state(i), None) == None by { NoStep(run.state(i)); }
      case Some(move) => MoveIsStep(universe, run.state(i), move);
    }
  }

  lemma NoStep(s: System)
    ensures StepOf(s, None) == None
  {
  }

  // -------------------------------------------- an owner until its own next move

  predicate Own(act: Option<Move>, o: nat) {
    act.Some? && act.value.o == o && !act.value.Expire?
  }

  lemma OthersLeaveOwner(universe: set<Path>, s: System, move: Move, o: nat)
    requires CanMove(universe, s, move) && o in s.owners && !Own(Some(move), o)
    ensures o in After(universe, s, move).owners && After(universe, s, move).owners[o] == s.owners[o]
  {
    hide Next, Admits;
  }

  /** The first move of an owner's own from `i` on, or `j` if there is none before. */
  lemma UntilOwn(universe: set<Path>, run: OwnerRun, i: nat, j: nat, o: nat) returns (k: nat)
    requires IsOwnerRun(universe, run) && i <= j && o in run.state(i).owners
    ensures i <= k <= j && o in run.state(k).owners && run.state(k).owners[o] == run.state(i).owners[o]
    ensures k < j ==> Own(run.act(k), o)
  {
    hide CanMove, After;
    k := i;
    while k < j && !Own(run.act(k), o)
      invariant i <= k <= j && o in run.state(k).owners && run.state(k).owners[o] == run.state(i).owners[o]
    {
      assert Acts(universe, run, k);
      if run.act(k).Some? { OthersLeaveOwner(universe, run.state(k), run.act(k).value, o); }
      k := k + 1;
    }
  }

  lemma WaiterHasOwner(universe: set<Path>, s: System, id: nat) returns (o: nat)
    requires SystemInv(universe, s) && Has(s.world, id, Waiting)
    ensures o in s.owners && s.owners[o].pending == Some(id)
  {
    hide Inv, OwnerInv;
    o := s.holder[id];
  }

  lemma WokenWaitersOfRun(universe: set<Path>, run: OwnerRun)
    requires IsOwnerRun(universe, run) && Fair(run)
    ensures WokenWaitersRun(RegistryRun(run))
  {
    var r := RegistryRun(run);
    hide IsOwnerRun, SystemInv, Fair, RegistryRun, Runnable;
    forall i: nat, id: nat | Runnable(r.state(i), id) ensures ResumedLater(r, i, id) {
      var k := WokenWaiter(universe, run, i, id);
      assert r.act(k) == Some(Resume(id));
    }
  }

  lemma WokenWaiter(universe: set<Path>, run: OwnerRun, i: nat, id: nat) returns (k: nat)
    requires IsOwnerRun(universe, run) && Fair(run) && Runnable(RegistryRun(run).state(i), id)
    ensures k >= i && RegistryRun(run).act(k) == Some(Resume(id))
  {
    hide IsOwnerRun, SystemInv;
    RunKeeps(universe, run, i);
    var o := WaiterHasOwner(universe, run.state(i), id);
    assert Woken(run.state(i), o);
    assert WakesLater(run, i, o);
    var j: nat :| j >= i && run.act(j) == Some(Wake(o));
    k := UntilOwn(universe, run, i, j, o);
    OwnMoveOfWaiter(universe, run, k, o);
  }

  lemma OwnMoveOfWaiter(universe: set<Path>, run: OwnerRun, k: nat, o: nat)
    requires IsOwnerRun(universe, run) && o in run.state(k).owners && run.state(k).owners[o].pending.Some?
    requires Own(run.act(k), o)
    ensures run.act(k) == Some(Wake(o))
  {
    hide After;
    assert Acts(universe, run, k);
  }

  // ------------------------------------------------------ the order of releases

  /** The workspaces an owner of `x` may still wait for, and all those after them. */
  ghost function Later(universe: set<Path>, x: Path): set<Path> {
    set y | y in universe && Disjoint(x, y) && Less(Render(x), Render(y))
  }

  lemma LaterSame(universe: set<Path>, x: Path, y: Path)
    requires Good(universe) && x in universe && y in universe && Overlaps(x, y)
    ensures Later(universe, x) == Later(universe, y)
  {
    hide Unforked, Uninterrupted, Overlaps, Render, Le;
    OverlapsSymmetric(x, y);
    forall z | z in universe ensures z in Later(universe, x) <==> z in Later(universe, y) {
      LaterMoves(universe, x, y, z);
      LaterMoves(universe, y, x, z);
    }
  }

  lemma LaterMoves(universe: set<Path>, x: Path, y: Path, z: Path)
    requires Good(universe) && x in universe && y in universe && z in universe && Overlaps(x, y)
    ensures z in Later(universe, x) ==> z in Later(universe, y)
  {
    hide Unforked, Uninterrupted, Overlaps, Render, Le;
    if z in Later(universe, x) {
      NothingInBetween(universe, x, z, y);
      LeTotal(Render(y), Render(z));
      LeRefl(Render(y));
      if Overlaps(y, z) { OverlapTransitive(universe, x, y, z); }
      assert Render(y) != Render(z);
    }
  }

  lemma LaterShrinks(universe: set<Path>, x: Path, y: Path)
    requires Good(universe) && x in universe && y in Later(universe, x)
    ensures |Later(universe, y)| < |Later(universe, x)|
  {
    hide Unforked, Uninterrupted, Overlaps, Render, Le;
    OverlapIsContainment(y, y);
    forall z | z in Later(universe, y) ensures z in Later(universe, x) {
      LaterOfLater(universe, x, y, z);
    }
    assert y !in Later(universe, y);
    SubsetSize(Later(universe, y), Later(universe, x) - {y});
  }

  lemma LaterOfLater(universe: set<Path>, x: Path, y: Path, z: Path)
    requires Good(universe) && x in universe && y in Later(universe, x) && z in Later(universe, y)
    ensures z in Later(universe, x)
  {
    hide Unforked, Uninterrupted, Overlaps, Render, Le;
    LessTransitive(Render(x), Render(y), Render(z));
    if Overlaps(x, z) { NothingInBetween(universe, x, y, z); }
  }

  // ------------------------------------------------------------------ zones

  ghost predicate AllRequested(universe: set<Path>, w: World) {
    forall id :: id in w.history ==> w.history[id].path in universe
  }

  lemma {:induction false} RunRequests(universe: set<Path>, run: OwnerRun, i: nat)
    requires IsOwnerRun(universe, run)
    ensures AllRequested(universe, run.state(i).world)
  {
    hide CanMove, After, SystemInv;
    if i > 0 {
      RunRequests(universe, run, i - 1);
      RunKeeps(universe, run, i - 1);
      assert Acts(universe, run, i - 1);
      if run.act(i - 1).Some? { MoveRequests(universe, run.state(i - 1), run.act(i - 1).value); }
    }
  }

  lemma MoveRequests(universe: set<Path>, s: System, move: Move)
    requires SystemInv(universe, s) && CanMove(universe, s, move) && AllRequested(universe, s.world)
    ensures AllRequested(universe, After(universe, s, move).world)
  {
    hide Inv, LeasesOwned, Next;
    var w, w' := s.world, After(universe, s, move).world;
    MoveIsStep(universe, s, move);
    match StepOf(s, Some(move))
    case None =>
    case Some(step) =>
      StepTouchesSubject(w, step);
      forall id | id in w'.history ensures w'.history[id].path in universe {
        if id !in w.history { NewRequest(universe, s, move, step, id); }
      }
  }

  lemma NewRequest(universe: set<Path>, s: System, move: Move, step: Step, id: nat)
    requires SystemInv(universe, s) && CanMove(universe, s, move) && StepOf(s, Some(move)) == Some(step)
    requires Enabled(s.world, step) && id in Next(s.world, step).history && id !in s.world.history
    ensures Next(s.world, step).history[id].path in universe
  {
    hide Inv, LeasesOwned, Next;
    OnlyArrivalsAdd(s.world, step, id);
    StepTouchesSubject(s.world, step);
    var owner := s.owners[move.o];
    assert OwnerInv(universe, s, move.o);
    assert owner.plan[|owner.held|] in owner.plan;
  }

  lemma OnlyArrivalsAdd(w: World, step: Step, id: nat)
    requires Inv(w) && Enabled(w, step) && id in Next(w, step).history && id !in w.history
    ensures step.Arrive?
  {
    hide Inv, Pass;
    if step.Resume? { ResumeKeepsKeys(w, step.id); }
  }

  /** Everything that overlaps `x`. */
  ghost function Zone(x: Path): Path -> bool {
    (p: Path) => Overlaps(x, p)
  }

  lemma ZoneClosed(universe: set<Path>, run: OwnerRun, x: Path)
    requires IsOwnerRun(universe, run) && Good(universe) && x in universe
    ensures ClosedRun(RegistryRun(run), Zone(x))
  {
    hide IsOwnerRun, Unforked, Uninterrupted, Overlaps;
    var r := RegistryRun(run);
    forall i: nat ensures Closed(r.state(i), Zone(x)) {
      var w := run.state(i).world;
      RunRequests(universe, run, i);
      forall a, b | a in w.history && b in w.history && Overlaps(x, w.history[a].path)
          && Overlaps(w.history[a].path, w.history[b].path) ensures Overlaps(x, w.history[b].path) {
        OverlapTransitive(universe, x, w.history[a].path, w.history[b].path);
      }
    }
  }

  // ------------------------------------------- what becomes of a waiting owner

  /** The owner was cancelled, or refused because 128 requests wait already. */
  ghost predicate Disturbed(run: OwnerRun, k: nat, o: nat) {
    run.act(k) == Some(Expire(o)) || run.act(k) == Some(Request(o, true)) ||
    (Requests(run.act(k), o) && |run.state(k).world.registry.waiting| >= WAITER_BUDGET)
  }

  ghost predicate DisturbedBetween(run: OwnerRun, i: nat, j: nat, o: nat) {
    exists k: nat :: i <= k < j && Disturbed(run, k, o)
  }

  /** The owner after its pending request was decided. */
  ghost predicate Decided(owner: Owner, id: nat, owner': Owner) {
    owner' == owner.(pending := None, held := owner.held + [id]) || owner' == owner.(pending := None, closing := true)
  }

  lemma WakeDecides(universe: set<Path>, s: System, o: nat)
    requires SystemInv(universe, s) && CanMove(universe, s, Wake(o))
    ensures var s' := After(universe, s, Wake(o)); var id := s.owners[o].pending.value;
      && o in s'.owners
      && (s'.owners[o] == s.owners[o] || Decided(s.owners[o], id, s'.owners[o]))
      && (id !in s.world.cancelled ==> !s'.owners[o].closing)
      && s'.world.cancelled == s.world.cancelled
  {
    hide Inv, LeasesOwned, Next;
    assert OwnerInv(universe, s, o);
    ResumeDecides(s.world, s.owners[o].pending.value);
  }

  lemma ResumeDecides(w: World, id: nat)
    requires Inv(w) && Runnable(w, id)
    ensures var w' := Next(w, Resume(id));
      && w'.cancelled == w.cancelled
      && (id !in w.cancelled ==> Has(w', id, Waiting) || Has(w', id, Active))
  {
    hide Admissible, Exclusion, NoLostWakeup;
  }

  /** Only an owner's own cancellation cancels its request. */
  lemma OthersDoNotCancel(universe: set<Path>, s: System, move: Move, o: nat)
    requires SystemInv(universe, s) && CanMove(universe, s, move) && o in s.owners && s.owners[o].pending.Some?
    requires move != Expire(o) && s.owners[o].pending.value !in s.world.cancelled
    ensures s.owners[o].pending.value !in After(universe, s, move).world.cancelled
  {
    hide Inv, LeasesOwned, Next, Admits;
    assert OwnerInv(universe, s, o);
    if move.o in s.owners { assert OwnerInv(universe, s, move.o); }
    MoveIsStep(universe, s, move);
    var step := StepOf(s, Some(move));
    if step.Some? { StepCancels(s.world, step.value, s.owners[o].pending.value); }
  }

  lemma StepCancels(w: World, step: Step, id: nat)
    requires Inv(w) && Enabled(w, step) && id in w.history && id !in w.cancelled && step != Cancel(id)
    ensures id !in Next(w, step).cancelled
  {
    hide Admissible, Exclusion, NoLostWakeup, QueueInv, Recorded;
  }

  /** A pending request that is no longer queued at `j` was decided by then, and
      in the owner's favour unless the owner was cancelled. */
  lemma PendingDecided(universe: set<Path>, run: OwnerRun, i: nat, j: nat, o: nat, id: nat) returns (k: nat)
    requires IsOwnerRun(universe, run) && i <= j && o in run.state(i).owners && run.state(i).owners[o].pending == Some(id)
    requires !Has(run.state(j).world, id, Waiting)
    ensures i < k <= j && o in run.state(k).owners && Decided(run.state(i).owners[o], id, run.state(k).owners[o])
    ensures id !in run.state(i).world.cancelled && run.state(k).owners[o].closing ==> DisturbedBetween(run, i, k, o)
  {
    hide SystemInv, CanMove, After, Inv;
    var owner := run.state(i).owners[o];
    RunKeeps(universe, run, i);
    PendingNotClosing(universe, run.state(i), o);
    k := i;
    while k < j && o in run.state(k).owners && run.state(k).owners[o] == owner
      invariant i <= k <= j && o in run.state(k).owners
      invariant run.state(k).owners[o] == owner || (k > i && Decided(owner, id, run.state(k).owners[o]))
      invariant id in run.state(i).world.cancelled || DisturbedBetween(run, i, k, o)
             || (!run.state(k).owners[o].closing && (run.state(k).owners[o] == owner ==> id !in run.state(k).world.cancelled))
      decreases j - k
    {
      var s := run.state(k);
      RunKeeps(universe, run, k);
      assert Acts(universe, run, k);
      PendingStep(universe, run, k, o, id);
      if DisturbedBetween(run, i, k, o) {
        var at: nat :| i <= at < k && Disturbed(run, at, o);
        assert DisturbedBetween(run, i, k + 1, o);
      } else if Disturbed(run, k, o) {
        assert DisturbedBetween(run, i, k + 1, o);
      }
      k := k + 1;
    }
    if run.state(k).owners[o] == owner {
      RunKeeps(universe, run, j);
      PendingIsWaiting(universe, run.state(j), o);
    }
  }

  lemma PendingIsWaiting(universe: set<Path>, s: System, o: nat)
    requires SystemInv(universe, s) && o in s.owners && s.owners[o].pending.Some?
    ensures Has(s.world, s.owners[o].pending.value, Waiting)
  {
    assert OwnerInv(universe, s, o);
  }

  /** One step of a run in which owner `o` waits for `id`. */
  lemma PendingStep(universe: set<Path>, run: OwnerRun, k: nat, o: nat, id: nat)
    requires IsOwnerRun(universe, run) && SystemInv(universe, run.state(k))
    requires o in run.state(k).owners && run.state(k).owners[o].pending == Some(id)
    ensures var owner := run.state(k).owners[o]; var s' := run.state(k + 1);
      && o in s'.owners
      && (s'.owners[o] == owner || Decided(owner, id, s'.owners[o]))
      && (id !in run.state(k).world.cancelled && !Disturbed(run, k, o) ==>
            !s'.owners[o].closing && id !in s'.world.cancelled)
  {
    hide SystemInv, After, Inv;
    assert Acts(universe, run, k);
    var s := run.state(k);
    PendingNotClosing(universe, s, o);
    match run.act(k)
    case None =>
    case Some(move) =>
      if Own(Some(move), o) {
        OwnMoveOfWaiter(universe, run, k, o);
        WakeDecides(universe, s, o);
      } else {
        OthersLeaveOwner(universe, s, move, o);
        if move != Expire(o) && id !in s.world.cancelled { OthersDoNotCancel(universe, s, move, o); }
      }
  }

  lemma PendingNotClosing(universe: set<Path>, s: System, o: nat)
    requires SystemInv(universe, s) && o in s.owners && s.owners[o].pending.Some?
    ensures !s.owners[o].closing
  {
    assert OwnerInv(universe, s, o);
  }

  // --------------------------------------------------------- release and admission

  lemma HolderOf(universe: set<Path>, s: System, id: nat) returns (o: nat)
    requires SystemInv(universe, s) && Has(s.world, id, Active)
    ensures o in s.owners && id in s.owners[o].held && OwnerInv(universe, s, o)
  {
    hide Inv;
    o := s.holder[id];
    assert OwnerInv(universe, s, o);
  }

  lemma OwnMoveOfWanting(universe: set<Path>, run: OwnerRun, k: nat, o: nat)
    requires IsOwnerRun(universe, run) && Wants(run.state(k), o) && Own(run.act(k), o)
    ensures Requests(run.act(k), o)
  {
    hide After;
    assert Acts(universe, run, k);
  }

  lemma OwnMoveOfFinished(universe: set<Path>, run: OwnerRun, k: nat, o: nat)
    requires IsOwnerRun(universe, run) && MayDrop(run.state(k), o) && Own(run.act(k), o)
    ensures run.act(k) == Some(Drop(o))
  {
    hide After;
    assert Acts(universe, run, k);
  }

  /** What a request does to its owner: it takes the next workspace, waits for it, or gives up. */
  lemma RequestAnswers(universe: set<Path>, s: System, o: nat, expired: bool)
    requires SystemInv(universe, s) && CanMove(universe, s, Request(o, expired))
    ensures var s' := After(universe, s, Request(o, expired)); var owner := s.owners[o]; var id := s.world.registry.next + 1;
      && o in s'.owners
      && (|| s'.owners[o] == owner.(held := owner.held + [id])
          || s'.owners[o] == owner.(pending := Some(id))
          || s'.owners[o] == owner.(closing := true))
      && (!expired && |s.world.registry.waiting| < WAITER_BUDGET ==>
            !s'.owners[o].closing && id !in s'.world.cancelled)
  {
    hide Inv, LeasesOwned, Next;
    var owner := s.owners[o];
    assert OwnerInv(universe, s, o);
    if !expired && |s.world.registry.waiting| < WAITER_BUDGET {
      ArriveDecides(s.world, owner.plan[|owner.held|], owner.exclusive);
    }
  }

  lemma ArriveDecides(w: World, path: Path, exclusive: bool)
    requires Inv(w) && |w.registry.waiting| < WAITER_BUDGET
    ensures var w' := Next(w, Arrive(Some(path), exclusive, false)); var id := w.registry.next + 1;
      (Has(w', id, Waiting) || Has(w', id, Active)) && id !in w'.cancelled
  {
    hide Admissible, Exclusion, NoLostWakeup, QueueInv, Recorded;
  }

  /** A finished owner drops what it holds, last first. */
  lemma {:induction false} FinishedReleases(universe: set<Path>, run: OwnerRun, i: nat, o: nat, id: nat) returns (j: nat)
    requires IsOwnerRun(universe, run) && Fair(run)
    requires MayDrop(run.state(i), o) && id in run.state(i).owners[o].held
    ensures j >= i && !Has(run.state(j).world, id, Active)
    decreases |run.state(i).owners[o].held|
  {
    hide IsOwnerRun, SystemInv, CanMove, After;
    assert DropsLater(run, i, o);
    var d: nat :| d >= i && run.act(d) == Some(Drop(o));
    var k := UntilOwn(universe, run, i, d, o);
    OwnMoveOfFinished(universe, run, k, o);
    RunKeeps(universe, run, k);
    DropReleases(universe, run, k, o, id);
    j := k + 1;
    if Has(run.state(j).world, id, Active) {
      j := FinishedReleases(universe, run, k + 1, o, id);
    }
  }

  lemma DropReleases(universe: set<Path>, run: OwnerRun, k: nat, o: nat, id: nat)
    requires IsOwnerRun(universe, run) && SystemInv(universe, run.state(k)) && run.act(k) == Some(Drop(o))
    requires o in run.state(k).owners && id in run.state(k).owners[o].held
    ensures var s' := run.state(k + 1);
      || !Has(s'.world, id, Active)
      || (MayDrop(s', o) && id in s'.owners[o].held && |s'.owners[o].held| < |run.state(k).owners[o].held|)
  {
    hide Inv, LeasesOwned, Next;
    assert Acts(universe, run, k);
    var s := run.state(k);
    var owner := s.owners[o];
    assert OwnerInv(universe, s, o);
    var n := |owner.held| - 1;
    StepTouchesSubject(s.world, Release(owner.held[n]));
    if id != owner.held[n] {
      assert id in owner.held[..n];
    }
  }

  /** The owner after a request: it took the next workspace, waits for it, or gave up. */
  predicate Asked(owner: Owner, owner': Owner) {
    || (owner.held <= owner'.held && |owner'.held| == |owner.held| + 1 && owner' == owner.(held := owner'.held))
    || (owner'.pending.Some? && owner' == owner.(pending := owner'.pending))
    || owner' == owner.(closing := true)
  }

  ghost predicate Uncancelled(s: System, o: nat) {
    o in s.owners && !s.owners[o].closing
    && (s.owners[o].pending.Some? ==> s.owners[o].pending.value !in s.world.cancelled)
  }

  /** An owner that wants another workspace asks for it. */
  lemma AfterRequest(universe: set<Path>, run: OwnerRun, i: nat, o: nat) returns (k: nat)
    requires IsOwnerRun(universe, run) && Fair(run) && Wants(run.state(i), o)
    ensures k > i && o in run.state(k).owners && Asked(run.state(i).owners[o], run.state(k).owners[o])
    ensures Uncancelled(run.state(k), o) || DisturbedBetween(run, i, k, o)
  {
    hide IsOwnerRun, SystemInv, CanMove, After;
    assert RequestsLater(run, i, o);
    var d: nat :| d >= i && Requests(run.act(d), o);
    var at := UntilOwn(universe, run, i, d, o);
    OwnMoveOfWanting(universe, run, at, o);
    RunKeeps(universe, run, at);
    k := at + 1;
    RequestStep(universe, run, at, o);
    assert Disturbed(run, at, o) ==> DisturbedBetween(run, i, k, o);
  }

  lemma RequestStep(universe: set<Path>, run: OwnerRun, k: nat, o: nat)
    requires IsOwnerRun(universe, run) && SystemInv(universe, run.state(k)) && Wants(run.state(k), o) && Requests(run.act(k), o)
    ensures o in run.state(k + 1).owners && Asked(run.state(k).owners[o], run.state(k + 1).owners[o])
    ensures Uncancelled(run.state(k + 1), o) || Disturbed(run, k, o)
  {
    hide SystemInv, After;
    assert Acts(universe, run, k);
    RequestAnswers(universe, run.state(k), o, run.act(k).value.expired);
  }

  lemma FullOrClosing(universe: set<Path>, s: System, o: nat, id: nat)
    requires SystemInv(universe, s) && o in s.owners && s.owners[o].pending.None? && id in s.owners[o].held
    requires s.owners[o].closing || |s.owners[o].held| >= 2 || !Wants(s, o)
    ensures MayDrop(s, o)
  {
    hide Inv, LeasesOwned;
    assert OwnerInv(universe, s, o);
  }

  /** A holder that waits, waits for a workspace with fewer later ones. */
  lemma WaitsForLater(universe: set<Path>, s: System, o: nat)
    requires Good(universe) && SystemInv(universe, s)
    requires o in s.owners && s.owners[o].pending.Some? && |s.owners[o].held| == 1
    ensures var owner := s.owners[o];
      && Has(s.world, owner.pending.value, Waiting)
      && |Later(universe, s.world.history[owner.pending.value].path)| < |Later(universe, s.world.history[owner.held[0]].path)|
  {
    hide SystemInv, Good, Disjoint, Less, Render;
    PendingIsWaiting(universe, s, o);
    PathsOfPlan(universe, s, o);
    var plan := s.owners[o].plan;
    assert plan[1] in Later(universe, plan[0]);
    LaterShrinks(universe, plan[0], plan[1]);
  }

  lemma HoldingAndWaiting(universe: set<Path>, run: OwnerRun, i: nat, k: nat, o: nat, id: nat)
    requires IsOwnerRun(universe, run) && Good(universe) && i <= k && Has(run.state(i).world, id, Active)
    requires o in run.state(k).owners && id in run.state(k).owners[o].held && run.state(k).owners[o].pending.Some?
    ensures var wanted := run.state(k).owners[o].pending.value;
      && Has(run.state(k).world, wanted, Waiting)
      && |Later(universe, run.state(k).world.history[wanted].path)| < |Later(universe, run.state(i).world.history[id].path)|
  {
    hide IsOwnerRun, Good, SystemInv, Later;
    RunKeeps(universe, run, k);
    RegistryRunIsRun(universe, run);
    hide IsRun;
    HistoryStays(RegistryRun(run), i, k, id);
    PathsOfPlan(universe, run.state(k), o);
    WaitsForLater(universe, run.state(k), o);
  }

  /** Every holder releases: a finished one by fairness, one that waits for its
      second workspace because it is admitted there, or gives up. */
  lemma {:induction false} Releases(universe: set<Path>, run: OwnerRun, i: nat, id: nat) returns (j: nat)
    requires IsOwnerRun(universe, run) && Good(universe) && Fair(run) && Has(run.state(i).world, id, Active)
    ensures j >= i && !Has(run.state(j).world, id, Active)
    decreases |Later(universe, run.state(i).world.history[id].path)|, 0
  {
    hide IsOwnerRun, Good, Fair, CanMove, After, SystemInv, Later, OwnerInv;
    RunKeeps(universe, run, i);
    var o := HolderOf(universe, run.state(i), id);
    var k := i;
    if Wants(run.state(i), o) {
      k := AfterRequest(universe, run, i, o);
      RunKeeps(universe, run, k);
    }
    if run.state(k).owners[o].pending.Some? {
      HoldingAndWaiting(universe, run, i, k, o, id);
      var wanted := run.state(k).owners[o].pending.value;
      var out := Leaves(universe, run, k, wanted);
      k := PendingDecided(universe, run, k, out, o, wanted);
      RunKeeps(universe, run, k);
    }
    FullOrClosing(universe, run.state(k), o, id);
    j := FinishedReleases(universe, run, k, o, id);
  }

  /** Every waiter leaves the queue: those it may have to wait for overlap it, and release. */
  lemma {:induction false} Leaves(universe: set<Path>, run: OwnerRun, i: nat, id: nat) returns (j: nat)
    requires IsOwnerRun(universe, run) && Good(universe) && Fair(run) && Has(run.state(i).world, id, Waiting)
    ensures j >= i && !Has(run.state(j).world, id, Waiting)
    decreases |Later(universe, run.state(i).world.history[id].path)|, 1
  {
    hide IsOwnerRun, Good, Fair, Overlaps, Later;
    var x := run.state(i).world.history[id].path;
    var r := RegistryRun(run);
    RunRequests(universe, run, i);
    RegistryRunIsRun(universe, run);
    WokenWaitersOfRun(universe, run);
    ZoneClosed(universe, run, x);
    forall k: nat, other: nat | Has(r.state(k), other, Active) && Zone(x)(r.state(k).history[other].path)
      ensures ReleasedLater(r, k, other)
    {
      RunRequests(universe, run, k);
      LaterSame(universe, x, run.state(k).world.history[other].path);
      var at := Releases(universe, run, k, other);
      assert !Has(r.state(at), other, Active);
    }
    OverlapIsContainment(x, x);
    j := EventuallyLeaves(r, i, id, Zone(x));
  }

  lemma MoreDisturbed(run: OwnerRun, i: nat, j: nat, i': nat, j': nat, o: nat)
    requires DisturbedBetween(run, i, j, o) && i' <= i && j <= j'
    ensures DisturbedBetween(run, i', j', o)
  {
    var k: nat :| i <= k < j && Disturbed(run, k, o);
  }

  lemma BeginStep(universe: set<Path>, run: OwnerRun, i: nat, o: nat, plan: seq<Path>, exclusive: bool)
    requires IsOwnerRun(universe, run) && run.act(i) == Some(Begin(o, plan, exclusive))
    ensures o in run.state(i + 1).owners && run.state(i + 1).owners[o] == Owner(plan, exclusive, [], None, false)
  {
    assert Acts(universe, run, i);
  }

  /** No starvation: where no two workspaces fork and nothing interrupts, every
      owner that begins obtains its whole plan, one workspace or two, on every fair
      run, whatever others do, unless it is itself cancelled or refused for the
      limit of 128 waiting requests. */
  lemma EveryOwnerGetsItsPlan(universe: set<Path>, run: OwnerRun, i: nat, o: nat, plan: seq<Path>, exclusive: bool)
    returns (j: nat)
    requires IsOwnerRun(universe, run) && Good(universe) && Fair(run)
    requires run.act(i) == Some(Begin(o, plan, exclusive))
    ensures j > i && o in run.state(j).owners && run.state(j).owners[o].plan == plan
    ensures || (|run.state(j).owners[o].held| == |plan| && !run.state(j).owners[o].closing)
            || (run.state(j).owners[o].closing && DisturbedBetween(run, i, j, o))
  {
    hide IsOwnerRun, Good, Fair, CanMove, After, SystemInv, DisturbedBetween;
    BeginStep(universe, run, i, o, plan, exclusive);
    j := i + 1;
    while Wants(run.state(j), o)
      invariant j > i && o in run.state(j).owners && run.state(j).owners[o].plan == plan
      invariant run.state(j).owners[o].pending.None? && |run.state(j).owners[o].held| <= |plan|
      invariant run.state(j).owners[o].closing ==> DisturbedBetween(run, i, j, o)
      decreases |plan| - |run.state(j).owners[o].held|, !run.state(j).owners[o].closing
    {
      var k := AfterRequest(universe, run, j, o);
      if DisturbedBetween(run, j, k, o) { MoreDisturbed(run, j, k, i, k, o); }
      if run.state(k).owners[o].pending.Some? {
        var wanted := run.state(k).owners[o].pending.value;
        RunKeeps(universe, run, k);
        PendingIsWaiting(universe, run.state(k), o);
        var out := Leaves(universe, run, k, wanted);
        var at := PendingDecided(universe, run, k, out, o, wanted);
        if DisturbedBetween(run, i, k, o) { MoreDisturbed(run, i, k, i, at, o); }
        if DisturbedBetween(run, k, at, o) { MoreDisturbed(run, k, at, i, at, o); }
        k := at;
      }
      j := k;
    }
  }
}
