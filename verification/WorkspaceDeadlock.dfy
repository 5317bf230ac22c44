/** Owners that take one workspace, or two in plan order, over one registry: the
    exact condition on the requested workspaces under which no reachable state
    leaves everybody asleep for good. */
module WorkspaceDeadlock {
  import opened Order
  import opened WorkspacePaths
  import opened WorkspaceRegistry
  import opened WorkspaceAdmission
  import opened WorkspaceActions
  import opened Wrappers

  /** `held` are the lease ids already taken, in plan order; `pending` is the
      request the owner sleeps on; a closing owner only releases. */
  datatype Owner = Owner(plan: seq<Path>, exclusive: bool, held: seq<nat>, pending: Option<nat>, closing: bool)

  /** `holder` names the owner of every request ever made. */
  datatype System = System(world: World, owners: map<nat, Owner>, holder: map<nat, nat>)

  datatype Move =
    | Begin(o: nat, plan: seq<Path>, exclusive: bool)
    | Request(o: nat, expired: bool)
    | Wake(o: nat)
    | Expire(o: nat)
    | Drop(o: nat)
    | End(o: nat)

  const IDLE := System(START, map[], map[])

  /** An attempt takes one workspace in either mode; an action one or two, exclusively. */
  ghost predicate Admits(universe: set<Path>, plan: seq<Path>, exclusive: bool) {
    IsPlan(plan) && (|plan| == 2 ==> exclusive) && forall p :: p in plan ==> p in universe
  }

  predicate Finished(owner: Owner) {
    owner.pending.None? && (owner.closing || |owner.held| == |owner.plan|)
  }

  ghost predicate CanMove(universe: set<Path>, s: System, move: Move) {
    match move
    case Begin(o, plan, exclusive) => o !in s.owners && Admits(universe, plan, exclusive)
    case Request(o, _) =>
      o in s.owners && s.owners[o].pending.None? && !s.owners[o].closing &&
      |s.owners[o].held| < |s.owners[o].plan|
    case Wake(o) => o in s.owners && s.owners[o].pending.Some? && Runnable(s.world, s.owners[o].pending.value)
    case Expire(o) => o in s.owners && s.owners[o].pending.Some? && Has(s.world, s.owners[o].pending.value, Waiting)
    case Drop(o) =>
      o in s.owners && Finished(s.owners[o]) && s.owners[o].held != [] &&
      Has(s.world, s.owners[o].held[|s.owners[o].held| - 1], Active)
    case End(o) => o in s.owners && Finished(s.owners[o]) && s.owners[o].held == []
  }

  /** The owner after its request `id` was looked at. */
  function Answered(owner: Owner, id: nat, w: World): Owner {
    if Has(w, id, Waiting) then owner.(pending := Some(id))
    else if Has(w, id, Active) then owner.(pending := None, held := owner.held + [id])
    else owner.(pending := None, closing := true)
  }

  ghost function After(universe: set<Path>, s: System, move: Move): System
    requires CanMove(universe, s, move)
  {
    match move
    case Begin(o, plan, exclusive) =>
      s.(owners := s.owners[o := Owner(plan, exclusive, [], None, false)])
    case Request(o, expired) =>
      var owner := s.owners[o];
      var id := s.world.registry.next + 1;
      var w := Next(s.world, Arrive(Some(owner.plan[|owner.held|]), owner.exclusive, expired));
      System(w, s.owners[o := Answered(owner, id, w)], if id in w.history then s.holder[id := o] else s.holder)
    case Wake(o) =>
      var owner := s.owners[o];
      var w := Next(s.world, Resume(owner.pending.value));
      s.(world := w, owners := s.owners[o := Answered(owner, owner.pending.value, w)])
    case Expire(o) =>
      s.(world := Next(s.world, Cancel(s.owners[o].pending.value)))
    case Drop(o) =>
      var owner := s.owners[o];
      var n := |owner.held| - 1;
      s.(world := Next(s.world, Release(owner.held[n])),
         owners := s.owners[o := owner.(held := owner.held[..n], closing := true)])
    case End(o) =>
      s.(owners := s.owners - {o})
  }

  ghost predicate Moved(universe: set<Path>, s: System, s': System) {
    exists move :: CanMove(universe, s, move) && s' == After(universe, s, move)
  }

  ghost predicate History(universe: set<Path>, ss: seq<System>) {
    |ss| > 0 && ss[0] == IDLE && forall i :: 0 <= i < |ss| - 1 ==> Moved(universe, ss[i], ss[i + 1])
  }

  /** Every owner sleeps on the current channel, uncancelled: only an outside
      cancellation could move anything again. */
  ghost predicate Stuck(s: System) {
    s.owners != map[] && forall o :: o in s.owners ==>
      s.owners[o].pending.Some? && !Runnable(s.world, s.owners[o].pending.value)
  }

  /** No requested workspace contains two others that are disjoint from each other. */
  ghost predicate Unforked(universe: set<Path>) {
    forall p, x, y :: p in universe && x in universe && y in universe && p <= x && p <= y ==> Overlaps(x, y)
  }

  /** Nothing disjoint sorts between a requested workspace and one it contains. */
  ghost predicate Uninterrupted(universe: set<Path>) {
    forall x, y, z :: x in universe && y in universe && z in universe && x <= z && Disjoint(x, y)
      ==> !(Less(Render(x), Render(y)) && Less(Render(y), Render(z)))
  }

  // -------------------------------------------------------------- invariant

  ghost predicate Holds(w: World, id: nat, path: Path, exclusive: bool, fate: Fate) {
    Has(w, id, fate) && w.history[id] == Lease(id, path, exclusive)
  }

  ghost predicate OwnerInv(universe: set<Path>, s: System, o: nat)
    requires o in s.owners
  {
    var owner := s.owners[o];
    && Admits(universe, owner.plan, owner.exclusive)
    && |owner.held| <= |owner.plan|
    && (forall k :: 0 <= k < |owner.held| ==>
          Holds(s.world, owner.held[k], owner.plan[k], owner.exclusive, Active) &&
          owner.held[k] in s.holder && s.holder[owner.held[k]] == o)
    && (owner.pending.Some? ==>
          && !owner.closing && |owner.held| < |owner.plan|
          && Holds(s.world, owner.pending.value, owner.plan[|owner.held|], owner.exclusive, Waiting)
          && owner.pending.value in s.holder && s.holder[owner.pending.value] == o)
  }

  ghost predicate Owned(s: System, id: nat) {
    id in s.holder && s.holder[id] in s.owners
  }

  ghost predicate LeasesOwned(s: System) {
    && (forall id: nat :: Has(s.world, id, Active) ==> Owned(s, id) && id in s.owners[s.holder[id]].held)
    && (forall id: nat :: Has(s.world, id, Waiting) ==> Owned(s, id) && s.owners[s.holder[id]].pending == Some(id))
  }

  ghost predicate SystemInv(universe: set<Path>, s: System) {
    && Inv(s.world)
    && s.holder.Keys == s.world.history.Keys
    && (forall o :: o in s.owners ==> OwnerInv(universe, s, o))
    && LeasesOwned(s)
  }

  // ----------------------------------------------------------- preservation

  function Subject(w: World, step: Step): nat {
    match step
    case Arrive(_, _, _) => w.registry.next + 1
    case Cancel(id) => id
    case Resume(id) => id
    case Release(id) => id
  }

  ghost predicate SameExcept(w: World, w': World, subject: nat) {
    && (forall id: nat, fate :: id != subject ==> (Has(w', id, fate) <==> Has(w, id, fate)))
    && (forall id :: id in w.history ==> id in w'.history && w'.history[id] == w.history[id])
    && (forall id :: id in w'.history ==> id in w.history || id == subject)
  }

  /** A pass decides the fate of the request it is about. */
  lemma PassTouchesSubject(w: World, request: Lease)
    requires request.id in w.history && request.id in w.fate
    ensures SameExcept(w, Pass(w, request), request.id)
    ensures Pass(w, request).history == w.history
  {
    hide Admissible, Without;
  }

  lemma ArriveTouchesSubject(w: World, step: Step)
    requires Inv(w) && step.Arrive?
    ensures var id := w.registry.next + 1;
      && id !in w.history
      && SameExcept(w, Next(w, step), id)
      && (id in Next(w, step).history ==>
            step.path.Some? && Next(w, step).history[id] == Lease(id, step.path.value, step.exclusive))
  {
    hide Pass, QueueInv, Exclusion, NoLostWakeup, Recorded;
    if step.path.Some? && |w.registry.waiting| < WAITER_BUDGET {
      var request := Lease(w.registry.next + 1, step.path.value, step.exclusive);
      PassTouchesSubject(Queued(w, request, step.expired), request);
    }
  }

  /** A step decides the fate of one request. */
  lemma StepTouchesSubject(w: World, step: Step)
    requires Inv(w) && Enabled(w, step)
    ensures SameExcept(w, Next(w, step), Subject(w, step))
    ensures step.Arrive? ==>
              var id := w.registry.next + 1;
              id !in w.history &&
              (id in Next(w, step).history ==>
                 step.path.Some? && Next(w, step).history[id] == Lease(id, step.path.value, step.exclusive))
    ensures step.Cancel? ==> forall id: nat, fate :: Has(Next(w, step), id, fate) <==> Has(w, id, fate)
    ensures step.Release? ==> Has(Next(w, step), step.id, Gone)
  {
    hide Pass, Admissible, QueueInv, Exclusion, NoLostWakeup, Recorded, Released;
    match step
    case Arrive(_, _, _) => ArriveTouchesSubject(w, step);
    case Resume(id) => PassTouchesSubject(w, w.history[id]);
    case _ =>
  }

  /** One owner changes, and the one request it is about. */
  lemma OwnerChange(universe: set<Path>, s: System, s': System, o: nat, subject: nat)
    requires SystemInv(universe, s) && o in s.owners && o in s'.owners
    requires Inv(s'.world) && SameExcept(s.world, s'.world, subject)
    requires s'.owners == s.owners[o := s'.owners[o]]
    requires s'.holder.Keys == s'.world.history.Keys
    requires forall id :: id in s.holder ==> id in s'.holder && s'.holder[id] == s.holder[id]
    requires subject in s'.holder ==> s'.holder[subject] == o
    requires OwnerInv(universe, s', o)
    requires forall id :: id in s.owners[o].held && id != subject ==> id in s'.owners[o].held
    requires s.owners[o].pending.Some? && s.owners[o].pending.value != subject ==> s'.owners[o].pending == s.owners[o].pending
    requires Has(s'.world, subject, Active) ==> subject in s'.owners[o].held
    requires Has(s'.world, subject, Waiting) ==> s'.owners[o].pending == Some(subject)
    ensures SystemInv(universe, s')
  {
    hide Inv, Admits;
    assert LeasesOwned(s') by { LeasesChange(universe, s, s', o, subject); }
    hide LeasesOwned;
    forall other | other in s'.owners ensures OwnerInv(universe, s', other) {
      if other != o { assert OwnerInv(universe, s, other); }
    }
  }

  lemma LeasesChange(universe: set<Path>, s: System, s': System, o: nat, subject: nat)
    requires LeasesOwned(s) && o in s.owners && o in s'.owners && SameExcept(s.world, s'.world, subject)
    requires s'.owners == s.owners[o := s'.owners[o]]
    requires s'.holder.Keys == s'.world.history.Keys
    requires forall id :: id in s.holder ==> id in s'.holder && s'.holder[id] == s.holder[id]
    requires subject in s'.holder ==> s'.holder[subject] == o
    requires forall id :: id in s.owners[o].held && id != subject ==> id in s'.owners[o].held
    requires s.owners[o].pending.Some? && s.owners[o].pending.value != subject ==> s'.owners[o].pending == s.owners[o].pending
    requires Has(s'.world, subject, Active) ==> subject in s'.owners[o].held
    requires Has(s'.world, subject, Waiting) ==> s'.owners[o].pending == Some(subject)
    ensures LeasesOwned(s')
  {
    forall id: nat | Has(s'.world, id, Active) ensures Owned(s', id) && id in s'.owners[s'.holder[id]].held {
      if id != subject { assert Has(s.world, id, Active); }
    }
    forall id: nat | Has(s'.world, id, Waiting) ensures Owned(s', id) && s'.owners[s'.holder[id]].pending == Some(id) {
      if id != subject { assert Has(s.world, id, Waiting); }
    }
  }

  lemma BeginKeeps(universe: set<Path>, s: System, move: Move)
    requires SystemInv(universe, s) && CanMove(universe, s, move) && move.Begin?
    ensures SystemInv(universe, After(universe, s, move))
  {
    hide Inv, Admits;
    var s' := After(universe, s, move);
    forall o | o in s'.owners ensures OwnerInv(universe, s', o) {
      if o != move.o { assert OwnerInv(universe, s, o); }
    }
  }

  lemma RequestKeeps(universe: set<Path>, s: System, move: Move)
    requires SystemInv(universe, s) && CanMove(universe, s, move) && move.Request?
    ensures SystemInv(universe, After(universe, s, move))
  {
    hide Inv, Admits, Next, LeasesOwned;
    var o, owner, w, s' := move.o, s.owners[move.o], s.world, After(universe, s, move);
    var step := Arrive(Some(owner.plan[|owner.held|]), owner.exclusive, move.expired);
    assert OwnerInv(universe, s, o);
    StepKeepsInv(w, step);
    StepTouchesSubject(w, step);
    OwnerChange(universe, s, s', o, w.registry.next + 1);
  }

  lemma WakeKeeps(universe: set<Path>, s: System, move: Move)
    requires SystemInv(universe, s) && CanMove(universe, s, move) && move.Wake?
    ensures SystemInv(universe, After(universe, s, move))
  {
    hide Inv, Admits, Next, LeasesOwned;
    var o, owner, w, s' := move.o, s.owners[move.o], s.world, After(universe, s, move);
    var id := owner.pending.value;
    assert OwnerInv(universe, s, o);
    StepKeepsInv(w, Resume(id));
    StepTouchesSubject(w, Resume(id));
    ResumeKeepsKeys(w, id);
    OwnerChange(universe, s, s', o, id);
  }

  lemma ResumeKeepsKeys(w: World, id: nat)
    requires Inv(w) && Runnable(w, id)
    ensures Next(w, Resume(id)).history == w.history
  {
    hide Admissible, Inv;
  }

  lemma ExpireKeeps(universe: set<Path>, s: System, move: Move)
    requires SystemInv(universe, s) && CanMove(universe, s, move) && move.Expire?
    ensures SystemInv(universe, After(universe, s, move))
  {
    hide Inv, Admits, LeasesOwned;
    var o, w, s' := move.o, s.world, After(universe, s, move);
    var id := s.owners[o].pending.value;
    assert OwnerInv(universe, s, o);
    StepKeepsInv(w, Cancel(id));
    OwnerChange(universe, s, s', o, id);
  }

  lemma DropKeeps(universe: set<Path>, s: System, move: Move)
    requires SystemInv(universe, s) && CanMove(universe, s, move) && move.Drop?
    ensures SystemInv(universe, After(universe, s, move))
  {
    hide Inv, LeasesOwned, Next, Admits;
    var o, owner, w, s' := move.o, s.owners[move.o], s.world, After(universe, s, move);
    var n := |owner.held| - 1;
    var id := owner.held[n];
    assert OwnerInv(universe, s, o);
    StepKeepsInv(w, Release(id));
    StepTouchesSubject(w, Release(id));
    ReleaseKeepsKeys(w, id);
    HeldDiffer(universe, s, o);
    OwnerChange(universe, s, s', o, id);
  }

  /** Two leases of one owner are for disjoint workspaces. */
  lemma HeldDiffer(universe: set<Path>, s: System, o: nat)
    requires o in s.owners && OwnerInv(universe, s, o)
    ensures var held := s.owners[o].held; forall k :: 0 <= k < |held| - 1 ==> held[k] != held[|held| - 1]
  {
    var plan := s.owners[o].plan;
    if plan != [] { OverlapIsContainment(plan[0], plan[0]); }
  }

  lemma ReleaseKeepsKeys(w: World, id: nat)
    requires Inv(w) && Has(w, id, Active)
    ensures Next(w, Release(id)).history == w.history
  {
    hide Inv;
  }

  lemma EndKeeps(universe: set<Path>, s: System, move: Move)
    requires SystemInv(universe, s) && CanMove(universe, s, move) && move.End?
    ensures SystemInv(universe, After(universe, s, move))
  {
    hide Inv, Admits;
    var s' := After(universe, s, move);
    forall o | o in s'.owners ensures OwnerInv(universe, s', o) {
      assert OwnerInv(universe, s, o);
    }
  }

  lemma MoveKeeps(universe: set<Path>, s: System, move: Move)
    requires SystemInv(universe, s) && CanMove(universe, s, move)
    ensures SystemInv(universe, After(universe, s, move))
  {
    hide SystemInv, After;
    match move
    case Begin(_, _, _) => BeginKeeps(universe, s, move);
    case Request(_, _) => RequestKeeps(universe, s, move);
    case Wake(_) => WakeKeeps(universe, s, move);
    case Expire(_) => ExpireKeeps(universe, s, move);
    case Drop(_) => DropKeeps(universe, s, move);
    case End(_) => EndKeeps(universe, s, move);
  }

  lemma {:induction false} HistoryKeeps(universe: set<Path>, ss: seq<System>)
    requires History(universe, ss)
    ensures SystemInv(universe, ss[|ss| - 1])
  {
    hide SystemInv, After, CanMove;
    if |ss| == 1 {
      IdleInv(universe);
    } else {
      var n := |ss| - 2;
      var before := ss[..n + 1];
      assert forall i :: 0 <= i < |before| ==> before[i] == ss[i];
      HistoryKeeps(universe, before);
      assert before[n] == ss[n] && Moved(universe, ss[n], ss[n + 1]);
      var move :| CanMove(universe, ss[n], move) && ss[n + 1] == After(universe, ss[n], move);
      MoveKeeps(universe, ss[n], move);
    }
  }

  lemma IdleInv(universe: set<Path>)
    ensures SystemInv(universe, IDLE)
  {
  }

  // ------------------------------------------------------------ sufficiency

  /** In an unforked universe, overlapping is transitive. */
  lemma OverlapTransitive(universe: set<Path>, x: Path, y: Path, z: Path)
    requires Unforked(universe) && x in universe && y in universe && z in universe
    requires Overlaps(x, y) && Overlaps(y, z)
    ensures Overlaps(x, z)
  {
    OverlapIsContainment(x, y);
    OverlapIsContainment(y, z);
    OverlapIsContainment(x, z);
  }

  /** Every lease and request of the system is for a workspace of the universe. */
  lemma LeaseInUniverse(universe: set<Path>, s: System, id: nat, fate: Fate)
    requires SystemInv(universe, s) && Has(s.world, id, fate) && (fate == Waiting || fate == Active)
    ensures s.world.history[id].path in universe
  {
    hide Inv;
    var o := s.holder[id];
    assert OwnerInv(universe, s, o);
    if fate == Waiting {
    } else {
      var k :| 0 <= k < |s.owners[o].held| && s.owners[o].held[k] == id;
      assert s.owners[o].plan[k] in s.owners[o].plan;
    }
  }

  /** When everybody sleeps, some holder overlaps each waiting request. */
  lemma {:induction false} SleeperMeetsHolder(universe: set<Path>, s: System, id: nat) returns (h: nat)
    requires SystemInv(universe, s) && Stuck(s) && Unforked(universe) && Has(s.world, id, Waiting)
    ensures Has(s.world, h, Active) && Overlaps(s.world.history[h].path, s.world.history[id].path)
    decreases id
  {
    hide Overlaps, OwnerInv, Unforked, Admissible;
    var w, l := s.world, s.world.history[id];
    assert l in w.registry.waiting && l.id == id && SleepsSoundly(w, l);
    LeaseInUniverse(universe, s, id, Waiting);
    h := Obstacle(w, l);
    if Has(w, h, Waiting) {
      var g := SleeperMeetsHolder(universe, s, h);
      LeaseInUniverse(universe, s, h, Waiting);
      LeaseInUniverse(universe, s, g, Active);
      OverlapTransitive(universe, w.history[g].path, w.history[h].path, l.path);
      h := g;
    }
  }

  /** What makes a request inadmissible. */
  lemma Obstacle(w: World, l: Lease) returns (h: nat)
    requires Inv(w) && l in w.registry.waiting && !Admissible(w.registry, l)
    ensures Has(w, h, Active) || (Has(w, h, Waiting) && h < l.id)
    ensures Overlaps(w.history[h].path, l.path)
  {
    hide Overlaps, NoLostWakeup;
    AheadIsEarlier(w.registry.waiting, l);
    if a :| a in w.registry.active && Conflicts(a, l) {
      h := a.id;
    } else {
      var p :| p in w.registry.waiting && p.id < l.id && Conflicts(p, l);
      h := p.id;
    }
  }

  lemma PathsOfPlan(universe: set<Path>, s: System, o: nat)
    requires SystemInv(universe, s) && o in s.owners && s.owners[o].pending.Some? && s.owners[o].held != []
    ensures var owner := s.owners[o];
            && |owner.plan| == 2 && |owner.held| == 1
            && s.world.history[owner.held[0]].path == owner.plan[0]
            && s.world.history[owner.pending.value].path == owner.plan[1]
            && owner.plan[0] in universe && owner.plan[1] in universe
            && Disjoint(owner.plan[0], owner.plan[1]) && Less(Render(owner.plan[0]), Render(owner.plan[1]))
  {
    hide Inv, LeasesOwned;
    assert OwnerInv(universe, s, o);
  }

  /** The greatest workspace anybody waits for. */
  lemma {:induction false} GreatestWait(s: System, ids: set<nat>) returns (id: nat)
    requires ids != {} && forall i :: i in ids ==> i in s.world.history
    ensures id in ids
    ensures forall i :: i in ids ==> Le(Render(s.world.history[i].path), Render(s.world.history[id].path))
    decreases |ids|
  {
    hide Render;
    id :| id in ids;
    LeRefl(Render(s.world.history[id].path));
    if ids != {id} {
      var best := GreatestWait(s, ids - {id});
      var a, b := Render(s.world.history[id].path), Render(s.world.history[best].path);
      LeTotal(a, b);
      if Le(a, b) {
        id := best;
      } else {
        forall i | i in ids - {id} ensures Le(Render(s.world.history[i].path), a) {
          LeTransitive(Render(s.world.history[i].path), b, a);
        }
      }
    }
  }

  /** x and z belong together, y is apart from x and sorts after it: y cannot
      sort up to z. */
  lemma NothingInBetween(universe: set<Path>, x: Path, y: Path, z: Path)
    requires Unforked(universe) && Uninterrupted(universe)
    requires x in universe && y in universe && z in universe
    requires Overlaps(x, z) && Disjoint(x, y) && Less(Render(x), Render(y))
    ensures !Le(Render(y), Render(z))
  {
    hide Render, Le;
    OverlapsSymmetric(x, z);
    OverlapsSymmetric(y, z);
    OverlapIsContainment(y, z);
    OverlapIsContainment(x, z);
    if Overlaps(y, z) { OverlapTransitive(universe, x, z, y); }
    if Render(y) == Render(z) { RenderInjective(y, z); }
    if z <= x && Le(Render(y), Render(z)) {
      AncestorSortsFirst(z, x);
      LeTransitive(Render(y), Render(z), Render(x));
      LeAntisymmetric(Render(x), Render(y));
    }
  }

  /** In a universe that is unforked and uninterrupted, no state is stuck. */
  lemma GoodUniverseNeverStuck(universe: set<Path>, s: System)
    requires SystemInv(universe, s) && Unforked(universe) && Uninterrupted(universe)
    ensures !Stuck(s)
  {
    hide Inv, Overlaps, OwnerInv, Unforked, Uninterrupted, Render, Less;
    if Stuck(s) {
      var ids := set o | o in s.owners :: s.owners[o].pending.value;
      var o :| o in s.owners;
      assert s.owners[o].pending.value in ids;
      forall i | i in ids ensures Has(s.world, i, Waiting) {
        var p :| p in s.owners && s.owners[p].pending.value == i;
        assert OwnerInv(universe, s, p);
        PendingWaits(universe, s, p);
      }
      var z := GreatestWait(s, ids);
      var h := SleeperMeetsHolder(universe, s, z);
      var blocker := s.holder[h];
      var y := s.owners[blocker].pending.value;
      assert y in ids;
      PathsOfPlan(universe, s, blocker);
      LeaseInUniverse(universe, s, z, Waiting);
      NothingInBetween(universe, s.world.history[h].path, s.world.history[y].path, s.world.history[z].path);
    }
  }

  lemma PendingWaits(universe: set<Path>, s: System, o: nat)
    requires o in s.owners && OwnerInv(universe, s, o) && s.owners[o].pending.Some?
    ensures Has(s.world, s.owners[o].pending.value, Waiting)
  {
  }

  // -------------------------------------------------------------- necessity

  /** A request that finds nothing in its way. */
  function Joined(w: World, path: Path): World {
    var request := Lease(w.registry.next + 1, path, true);
    World(w.registry.(next := request.id, active := w.registry.active + [request]), w.asleep, w.cancelled,
          w.history[request.id := request], w.fate[request.id := Active])
  }

  /** A request that has to sleep. */
  function Slept(w: World, path: Path): World {
    var request := Lease(w.registry.next + 1, path, true);
    World(w.registry.(next := request.id, waiting := w.registry.waiting + [request]),
          w.asleep[request.id := w.registry.generation], w.cancelled,
          w.history[request.id := request], w.fate[request.id := Waiting])
  }

  lemma ArriveJoins(w: World, path: Path)
    requires w.registry.waiting == [] && w.cancelled == {} && w.registry.next + 1 !in w.asleep
    requires forall a :: a in w.registry.active ==> Disjoint(a.path, path)
    ensures Next(w, Arrive(Some(path), true, false)) == Joined(w, path)
  {
    hide Overlaps;
    var request := Lease(w.registry.next + 1, path, true);
    var q := Queued(w, request, false);
    assert q.registry.waiting == [request];
    assert Without(q.registry.waiting, request.id) == [];
    assert Admissible(q.registry, request);
    assert q.fate[request.id := Active] == w.fate[request.id := Active];
  }

  lemma ArriveSleeps(w: World, path: Path)
    requires |w.registry.waiting| < WAITER_BUDGET && w.cancelled == {}
    requires var request := Lease(w.registry.next + 1, path, true);
             !Admissible(w.registry.(waiting := w.registry.waiting + [request]), request)
    ensures Next(w, Arrive(Some(path), true, false)) == Slept(w, path)
  {
    hide Conflicts;
    var request := Lease(w.registry.next + 1, path, true);
    var r := w.registry.(waiting := w.registry.waiting + [request]);
    var q := Queued(w, request, false);
    assert Admissible(q.registry, request) <==> Admissible(r, request);
  }

  /** Owner `o` has asked for the next workspace of its plan and `w` is the outcome. */
  function Asked(s: System, o: nat, w: World): System
    requires o in s.owners
  {
    var id := s.world.registry.next + 1;
    System(w, s.owners[o := Answered(s.owners[o], id, w)], if id in w.history then s.holder[id := o] else s.holder)
  }

  lemma AskMove(universe: set<Path>, s: System, o: nat)
    requires o in s.owners && s.owners[o].pending.None? && !s.owners[o].closing
    requires |s.owners[o].held| < |s.owners[o].plan|
    ensures var path, exclusive := s.owners[o].plan[|s.owners[o].held|], s.owners[o].exclusive;
            Moved(universe, s, Asked(s, o, Next(s.world, Arrive(Some(path), exclusive, false))))
  {
    hide Next;
    var move := Request(o, false);
    assert CanMove(universe, s, move);
    var path, exclusive := s.owners[o].plan[|s.owners[o].held|], s.owners[o].exclusive;
    assert After(universe, s, move) == Asked(s, o, Next(s.world, Arrive(Some(path), exclusive, false)));
  }

  lemma BeginMove(universe: set<Path>, s: System, o: nat, plan: seq<Path>)
    requires o !in s.owners && Admits(universe, plan, true)
    ensures Moved(universe, s, s.(owners := s.owners[o := Owner(plan, true, [], None, false)]))
  {
    hide Admits;
    var move := Begin(o, plan, true);
    assert CanMove(universe, s, move);
  }

  lemma Extend(universe: set<Path>, ss: seq<System>, s: System) returns (longer: seq<System>)
    requires History(universe, ss) && Moved(universe, ss[|ss| - 1], s)
    ensures History(universe, longer) && longer[|longer| - 1] == s
  {
    hide Moved;
    longer := ss + [s];
    forall i | 0 <= i < |longer| - 1 ensures Moved(universe, longer[i], longer[i + 1]) {
      if i < |ss| - 1 { assert longer[i] == ss[i] && longer[i + 1] == ss[i + 1]; }
    }
  }

  function Taking(path: Path): Step {
    Arrive(Some(path), true, false)
  }

  lemma ForkWorlds(p: Path, x: Path, y: Path)
    requires p <= x && p <= y && Disjoint(x, y)
    ensures Next(START, Taking(x)) == Joined(START, x)
    ensures Next(Joined(START, x), Taking(p)) == Slept(Joined(START, x), p)
    ensures Next(Slept(Joined(START, x), p), Taking(y)) == Slept(Slept(Joined(START, x), p), y)
  {
    hide Overlaps, Next;
    OverlapIsContainment(x, p);
    OverlapIsContainment(p, y);
    var l1, l2, l3 := Lease(1, x, true), Lease(2, p, true), Lease(3, y, true);
    var w1 := Joined(START, x);
    ArriveJoins(START, x);
    var w2 := Slept(w1, p);
    assert w1.registry == Registry(1, [l1], [], 0);
    assert Conflicts(l1, l2);
    ArriveSleeps(w1, p);
    assert w2.registry == Registry(2, [l1], [l2], 0);
    assert Conflicts(l2, l3) && [l2] + [l3] == [l2, l3];
    assert !ClearAhead([l2, l3], l3);
    ArriveSleeps(w2, y);
  }

  lemma InterruptionWorlds(x: Path, y: Path, z: Path)
    requires x <= z && Disjoint(x, y)
    ensures Next(START, Taking(x)) == Joined(START, x)
    ensures Next(Joined(START, x), Taking(y)) == Joined(Joined(START, x), y)
    ensures var w := Joined(Joined(START, x), y);
            Next(w, Taking(y)) == Slept(w, y) && Next(Slept(w, y), Taking(z)) == Slept(Slept(w, y), z)
  {
    hide Overlaps, Next;
    OverlapIsContainment(x, z);
    OverlapIsContainment(y, y);
    var l1, l2, l3, l4 := Lease(1, x, true), Lease(2, y, true), Lease(3, y, true), Lease(4, z, true);
    var w1 := Joined(START, x);
    ArriveJoins(START, x);
    assert w1.registry == Registry(1, [l1], [], 0);
    var w2 := Joined(w1, y);
    ArriveJoins(w1, y);
    assert [l1] + [l2] == [l1, l2];
    assert w2.registry == Registry(2, [l1, l2], [], 0);
    var w3 := Slept(w2, y);
    assert l2 in w2.registry.active && Conflicts(l2, l3);
    ArriveSleeps(w2, y);
    assert w3.registry == Registry(3, [l1, l2], [l3], 0);
    assert l1 in w3.registry.active && Conflicts(l1, l4);
    ArriveSleeps(w3, z);
  }

  /** Owner 0 takes its first workspace; owner 1 arrives and asks for its own first one. */
  lemma TwoOwners(universe: set<Path>, plan: seq<Path>, other: seq<Path>, w1: World, w2: World)
    returns (ss: seq<System>)
    requires Admits(universe, plan, true) && Admits(universe, other, true)
    requires w1 == Next(START, Taking(plan[0])) && w2 == Next(w1, Taking(other[0]))
    requires w1.registry.next == 1 && Has(w1, 1, Active) && w1.history.Keys == {1}
    requires 2 in w2.history
    ensures History(universe, ss)
    ensures ss[|ss| - 1] == System(w2,
              map[0 := Owner(plan, true, [1], None, false), 1 := Answered(Owner(other, true, [], None, false), 2, w2)],
              map[1 := 0, 2 := 1])
  {
    hide Next, Moved, Admits;
    var none: seq<nat> := [];
    ss := [IDLE];
    assert History(universe, ss);
    assert IsPlan(plan) && IsPlan(other) by { AdmitsPlan(universe, plan); AdmitsPlan(universe, other); }
    var s1 := System(START, map[0 := Owner(plan, true, none, None, false)], map[]);
    BeginMove(universe, IDLE, 0, plan);
    ss := Extend(universe, ss, s1);
    var s2 := Asked(s1, 0, w1);
    AskMove(universe, s1, 0);
    ss := Extend(universe, ss, s2);
    assert none + [1] == [1];
    var s3 := s2.(owners := s2.owners[1 := Owner(other, true, none, None, false)]);
    BeginMove(universe, s2, 1, other);
    ss := Extend(universe, ss, s3);
    AskMove(universe, s3, 1);
    ss := Extend(universe, ss, Asked(s3, 1, w2));
  }

  lemma AdmitsPlan(universe: set<Path>, plan: seq<Path>)
    requires Admits(universe, plan, true)
    ensures IsPlan(plan)
  {
  }

  /** A queued request for a common ancestor blocks an action between its two acquisitions. */
  lemma ForkGetsStuck(universe: set<Path>, p: Path, x: Path, y: Path) returns (ss: seq<System>)
    requires p in universe && x in universe && y in universe
    requires p <= x && p <= y && Disjoint(x, y) && Less(Render(x), Render(y))
    ensures History(universe, ss) && Stuck(ss[|ss| - 1])
  {
    hide Overlaps, Render, Less, Next, Moved;
    ForkWorlds(p, x, y);
    var w1, w2 := Joined(START, x), Slept(Joined(START, x), p);
    ss := TwoOwners(universe, [x, y], [p], w1, w2);
    var s := ss[|ss| - 1];
    AskMove(universe, s, 0);
    var end := Asked(s, 0, Slept(w2, y));
    ss := Extend(universe, ss, end);
    assert end.owners[0].pending == Some(3) && end.owners[1].pending == Some(2);
    assert end.owners.Keys == {0, 1};
  }

  /** Two actions in plan order can each hold what the other waits for. */
  lemma InterruptionGetsStuck(universe: set<Path>, x: Path, y: Path, z: Path) returns (ss: seq<System>)
    requires x in universe && y in universe && z in universe
    requires x <= z && Disjoint(x, y) && Less(Render(x), Render(y)) && Less(Render(y), Render(z))
    ensures History(universe, ss) && Stuck(ss[|ss| - 1])
  {
    hide Overlaps, Render, Less, Next, Moved;
    OverlapIsContainment(x, y);
    OverlapIsContainment(y, z);
    InterruptionWorlds(x, y, z);
    var w1 := Joined(START, x);
    var w2 := Joined(w1, y);
    var w3 := Slept(w2, y);
    ss := TwoOwners(universe, [x, y], [y, z], w1, w2);
    var s := ss[|ss| - 1];
    AskMove(universe, s, 0);
    var s' := Asked(s, 0, w3);
    ss := Extend(universe, ss, s');
    AskMove(universe, s', 1);
    var end := Asked(s', 1, Slept(w3, z));
    ss := Extend(universe, ss, end);
    assert end.owners[0].pending == Some(3) && end.owners[1].pending == Some(4);
    assert end.owners.Keys == {0, 1};
  }

  // -------------------------------------------------------------- the answer

  ghost predicate NeverStuck(universe: set<Path>) {
    forall ss :: History(universe, ss) ==> !Stuck(ss[|ss| - 1])
  }

  /** Exactly the unforked, uninterrupted sets of workspaces are free of deadlock. */
  lemma NeverStuckExactly(universe: set<Path>)
    ensures NeverStuck(universe) <==> Unforked(universe) && Uninterrupted(universe)
  {
    hide Stuck, Moved, Render, Overlaps, SystemInv;
    if Unforked(universe) && Uninterrupted(universe) {
      forall ss | History(universe, ss) ensures !Stuck(ss[|ss| - 1]) {
        HistoryKeeps(universe, ss);
        GoodUniverseNeverStuck(universe, ss[|ss| - 1]);
      }
    } else if !Unforked(universe) {
      var p, x, y :| p in universe && x in universe && y in universe && p <= x && p <= y && !Overlaps(x, y);
      OverlapsSymmetric(x, y);
      OverlapIsContainment(x, x);
      LeTotal(Render(x), Render(y));
      if Render(x) == Render(y) { RenderInjective(x, y); }
      if Le(Render(x), Render(y)) {
        var ss := ForkGetsStuck(universe, p, x, y);
      } else {
        var ss := ForkGetsStuck(universe, p, y, x);
      }
    } else {
      var x, y, z :| x in universe && y in universe && z in universe && x <= z && Disjoint(x, y)
        && Less(Render(x), Render(y)) && Less(Render(y), Render(z));
      var ss := InterruptionGetsStuck(universe, x, y, z);
    }
  }

  /** In particular, workspaces that are pairwise equal or disjoint never deadlock. */
  lemma PairwiseDisjointNeverStuck(universe: set<Path>)
    requires forall x, y :: x in universe && y in universe && x != y ==> Disjoint(x, y)
    ensures NeverStuck(universe)
  {
    hide NeverStuck, Render;
    forall p, x, y | p in universe && x in universe && y in universe && p <= x && p <= y ensures Overlaps(x, y) {
      OverlapIsContainment(p, x);
      OverlapIsContainment(p, y);
      OverlapIsContainment(x, y);
    }
    forall x, y, z | x in universe && y in universe && z in universe && x <= z && Disjoint(x, y)
      ensures !(Less(Render(x), Render(y)) && Less(Render(y), Render(z)))
    {
      OverlapIsContainment(x, z);
      if Le(Render(x), Render(y)) && Le(Render(y), Render(x)) { LeAntisymmetric(Render(x), Render(y)); }
    }
    NeverStuckExactly(universe);
  }

  /** Byte order is not component order: "/a" and "/a-b" against "/a-b" and "/a/c". */
  lemma HyphenDeadlock()
    ensures var universe: set<Path> := {["a"], ["a-b"], ["a", "c"]};
            !NeverStuck(universe)
  {
    var a: Path, ab: Path, ac: Path := ["a"], ["a-b"], ["a", "c"];
    var universe: set<Path> := {a, ab, ac};
    BytewiseWitness();
    hide NeverStuck, Render, Less, Overlaps, Unforked;
    OverlapIsContainment(a, ab);
    assert a[0] != ab[0];
    NeverStuckExactly(universe);
    assert a in universe && ab in universe && ac in universe && a <= ac && Disjoint(a, ab);
  }
}
