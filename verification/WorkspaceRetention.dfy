/** `retainableWorkspace` of apps/hub/workspace.go: a lease that its running
    attempt may extend. Every locked section is a step of its own, so `seal`
    and the dropping of a handle can be overtaken between their sections. */
module WorkspaceRetention {
  import opened WorkspaceRegistry
  import opened WorkspaceAdmission

  const HANDLE_BUDGET := 64

  /** How far a one-shot closure that ends in `drop` has run: `Last` has seen
      the count reach zero and has not called `release` yet. */
  datatype Closing = Unused | Closed | Last | Done

  /** `handles` are the successful retains in order; `refs` and `open` are the captured variables. */
  datatype Retained = Retained(open: bool, refs: int, seal: Closing, handles: seq<Closing>, releases: nat)

  datatype Event =
    | SealClose            // open = false
    | SealDrop             // refs--, read last
    | SealRelease          // release()
    | Retain
    | Drop(k: nat)         // refs--, read last, of handle k
    | DropRelease(k: nat)  // release(), of handle k

  const FRESH := Retained(true, 1, Unused, [], 0)

  /** Steps that the once-guards leave possible. `Retain` is always possible and may fail. */
  predicate Possible(l: Retained, e: Event) {
    match e
    case SealClose => l.seal == Unused
    case SealDrop => l.seal == Closed
    case SealRelease => l.seal == Last
    case Retain => true
    case Drop(k) => k < |l.handles| && l.handles[k] == Unused
    case DropRelease(k) => k < |l.handles| && l.handles[k] == Last
  }

  function Dropped(refs: int): Closing {
    if refs - 1 == 0 then Last else Done
  }

  predicate RetainSucceeds(l: Retained) {
    l.open && |l.handles| < HANDLE_BUDGET
  }

  function Happen(l: Retained, e: Event): Retained
    requires Possible(l, e)
  {
    match e
    case SealClose => l.(open := false, seal := Closed)
    case SealDrop => l.(refs := l.refs - 1, seal := Dropped(l.refs))
    case SealRelease => l.(seal := Done, releases := l.releases + 1)
    case Retain => if RetainSucceeds(l) then l.(refs := l.refs + 1, handles := l.handles + [Unused]) else l
    case Drop(k) => l.(refs := l.refs - 1, handles := l.handles[k := Dropped(l.refs)])
    case DropRelease(k) => l.(handles := l.handles[k := Done], releases := l.releases + 1)
  }

  /** The captured variables as an object. `count` is the number of successful retains. */
  class Retainable {
    var open: bool
    var refs: int
    var count: nat

    constructor ()
      ensures open && refs == 1 && count == 0
    {
      open, refs, count := true, 1, 0;
    }

    ghost predicate Is(l: Retained)
      reads this
    {
      open == l.open && refs == l.refs && count == |l.handles|
    }

    method CloseAdmission(ghost l: Retained)
      requires Is(l) && Possible(l, SealClose)
      modifies this
      ensures Is(Happen(l, SealClose))
    {
      open := false;
    }

    method DropOne(ghost l: Retained, ghost e: Event) returns (last: bool)
      requires Is(l) && Possible(l, e) && (e.SealDrop? || e.Drop?)
      modifies this
      ensures Is(Happen(l, e))
      ensures last <==> (if e.SealDrop? then Happen(l, e).seal else Happen(l, e).handles[e.k]) == Last
    {
      refs := refs - 1;
      last := refs == 0;
    }

    method Retain(ghost l: Retained) returns (ok: bool)
      requires Is(l)
      modifies this
      ensures Is(Happen(l, Event.Retain))
      ensures ok <==> RetainSucceeds(l)
    {
      if !open || count >= HANDLE_BUDGET { return false; }
      count := count + 1;
      refs := refs + 1;
      return true;
    }
  }

  // -------------------------------------------------------------- invariant

  function Pending(c: Closing): nat { if c == Last then 1 else 0 }
  function Outstanding(c: Closing): nat { if c == Unused || c == Closed then 1 else 0 }

  function Count(handles: seq<Closing>, f: Closing -> nat): nat {
    if handles == [] then 0 else f(handles[0]) + Count(handles[1..], f)
  }

  function Undropped(l: Retained): nat {
    Outstanding(l.seal) + Count(l.handles, Outstanding)
  }

  function Releasing(l: Retained): nat {
    Pending(l.seal) + Count(l.handles, Pending)
  }

  /** The count is the number of holders, and `release` has been or is being
      called exactly when that number is zero. */
  ghost predicate RetainedInv(l: Retained) {
    && l.refs == Undropped(l)
    && l.releases + Releasing(l) == (if l.refs == 0 then 1 else 0)
    && (l.open <==> l.seal == Unused)
    && |l.handles| <= HANDLE_BUDGET
    && (forall k :: 0 <= k < |l.handles| ==> l.handles[k] != Closed)
  }

  lemma {:induction false} CountAppend(handles: seq<Closing>, c: Closing, f: Closing -> nat)
    ensures Count(handles + [c], f) == Count(handles, f) + f(c)
  {
    if handles == [] {
      assert handles + [c] == [c];
    } else {
      assert (handles + [c])[1..] == handles[1..] + [c];
      CountAppend(handles[1..], c, f);
    }
  }

  lemma {:induction false} CountUpdate(handles: seq<Closing>, k: nat, c: Closing, f: Closing -> nat)
    requires k < |handles|
    ensures Count(handles[k := c], f) == Count(handles, f) - f(handles[k]) + f(c)
  {
    if k == 0 {
      assert handles[k := c][1..] == handles[1..];
    } else {
      assert handles[k := c][1..] == handles[1..][k - 1 := c];
      CountUpdate(handles[1..], k - 1, c, f);
    }
  }

  lemma EventKeepsInv(l: Retained, e: Event)
    requires RetainedInv(l) && Possible(l, e)
    ensures RetainedInv(Happen(l, e))
  {
    match e
    case Retain =>
      CountAppend(l.handles, Unused, Outstanding);
      CountAppend(l.handles, Unused, Pending);
    case Drop(k) =>
      CountUpdate(l.handles, k, Dropped(l.refs), Outstanding);
      CountUpdate(l.handles, k, Dropped(l.refs), Pending);
      ZeroEverywhere(l.handles, Pending);
    case DropRelease(k) =>
      CountUpdate(l.handles, k, Done, Outstanding);
      CountUpdate(l.handles, k, Done, Pending);
    case _ =>
  }

  lemma {:induction false} ZeroEverywhere(handles: seq<Closing>, f: Closing -> nat)
    ensures Count(handles, f) == 0 <==> forall k :: 0 <= k < |handles| ==> f(handles[k]) == 0
  {
    if handles != [] { ZeroEverywhere(handles[1..], f); }
  }

  ghost predicate Reached(ls: seq<Retained>) {
    |ls| > 0 && ls[0] == FRESH && forall i :: 0 <= i < |ls| - 1 ==> Happened(ls[i], ls[i + 1])
  }

  ghost predicate Happened(l: Retained, l': Retained) {
    exists e :: Possible(l, e) && l' == Happen(l, e)
  }

  lemma {:induction false} ReachedInv(ls: seq<Retained>)
    requires Reached(ls)
    ensures RetainedInv(ls[|ls| - 1])
  {
    if |ls| > 1 {
      var n := |ls| - 2;
      var before := ls[..n + 1];
      ReachedInv(before);
      assert Happened(ls[n], ls[n + 1]);
      var e :| Possible(ls[n], e) && ls[n + 1] == Happen(ls[n], e);
      EventKeepsInv(ls[n], e);
    }
  }

  /** Over every interleaving: `release` is called at most once; it is called,
      or about to be, exactly when the lease is sealed and no handle is left;
      and nothing is retained after the seal or past the budget. */
  lemma ReleasedExactlyOnce(ls: seq<Retained>)
    requires Reached(ls)
    ensures var l := ls[|ls| - 1];
            && l.releases + Releasing(l) <= 1
            && (l.releases + Releasing(l) == 1 <==>
                  l.seal != Unused && l.seal != Closed && forall k :: 0 <= k < |l.handles| ==> l.handles[k] != Unused)
            && |l.handles| <= HANDLE_BUDGET
            && (l.seal != Unused ==> !RetainSucceeds(l))
  {
    var l := ls[|ls| - 1];
    ReachedInv(ls);
    ZeroEverywhere(l.handles, Outstanding);
  }

  // ------------------------------------------------- together with the registry

  /** The registry lease `id` behind a retainable lease: its release closure is
      the only way the lease is released. */
  datatype Joint = Joint(world: World, id: nat, lease: Retained)

  datatype JointStep = InRegistry(step: Step) | InLease(e: Event)

  predicate JointPossible(j: Joint, s: JointStep) {
    match s
    case InRegistry(step) => Enabled(j.world, step) && step != Release(j.id)
    case InLease(e) => Possible(j.lease, e)
  }

  predicate Calls(e: Event) {
    e.SealRelease? || e.DropRelease?
  }

  /** The release closure looks the lease up and does nothing when it is gone. */
  function JointNext(j: Joint, s: JointStep): Joint
    requires JointPossible(j, s)
  {
    match s
    case InRegistry(step) => j.(world := Next(j.world, step))
    case InLease(e) =>
      j.(lease := Happen(j.lease, e),
         world := if Calls(e) && Has(j.world, j.id, Active) then Next(j.world, Release(j.id)) else j.world)
  }

  /** A run that starts when `id` has just been admitted. */
  ghost predicate JointRun(js: seq<Joint>) {
    && |js| > 0 && Inv(js[0].world) && Has(js[0].world, js[0].id, Active) && js[0].lease == FRESH
    && forall i :: 0 <= i < |js| - 1 ==> JointHappened(js[i], js[i + 1])
  }

  ghost predicate JointHappened(j: Joint, j': Joint) {
    exists s :: JointPossible(j, s) && j' == JointNext(j, s)
  }

  ghost predicate JointInv(j: Joint) {
    && Inv(j.world) && RetainedInv(j.lease)
    && Has(j.world, j.id, if j.lease.releases == 0 then Active else Gone)
  }

  lemma JointKeeps(j: Joint, s: JointStep)
    requires JointInv(j) && JointPossible(j, s)
    ensures JointInv(JointNext(j, s))
  {
    hide Inv, RetainedInv;
    match s
    case InRegistry(step) =>
      StepKeepsInv(j.world, step);
      StaysPut(j.world, step, j.id);
    case InLease(e) =>
      EventKeepsInv(j.lease, e);
      if Calls(e) && Has(j.world, j.id, Active) { StepKeepsInv(j.world, Release(j.id)); }
  }

  lemma StaysPut(w: World, step: Step, id: nat)
    requires Inv(w) && Enabled(w, step) && step != Release(id)
    ensures Has(w, id, Active) ==> Has(Next(w, step), id, Active)
    ensures Has(w, id, Gone) ==> Has(Next(w, step), id, Gone)
  {
    hide Admissible, QueueInv, Exclusion, NoLostWakeup, Without;
    match step
    case Arrive(_, _, _) => hide Released;
    case Resume(_) => hide Released;
    case _ =>
  }

  /** The workspace stays reserved as long as anything holds the lease, the
      unsealed attempt or a retained handle; and once `release` has been
      called it is free. */
  lemma {:induction false} HeldWhileOutstanding(js: seq<Joint>)
    requires JointRun(js)
    ensures var j := js[|js| - 1];
            && JointInv(j)
            && (j.lease.seal == Unused || (exists k :: 0 <= k < |j.lease.handles| && j.lease.handles[k] == Unused)
                ==> Has(j.world, j.id, Active))
            && (j.lease.releases > 0 ==> Has(j.world, j.id, Gone))
  {
    hide JointNext, JointPossible, Inv;
    var j := js[|js| - 1];
    if |js| > 1 {
      var n := |js| - 2;
      var before := js[..n + 1];
      assert forall i :: 0 <= i < |before| ==> before[i] == js[i];
      HeldWhileOutstanding(before);
      assert before[n] == js[n] && JointHappened(js[n], js[n + 1]);
      var s :| JointPossible(js[n], s) && js[n + 1] == JointNext(js[n], s);
      JointKeeps(js[n], s);
    }
    ZeroEverywhere(j.lease.handles, Outstanding);
  }

  /** A retain succeeds exactly before the seal and below 64 of them; it then adds
      one handle to be dropped, and otherwise changes nothing. */
  lemma RetainsExactly(ls: seq<Retained>)
    requires Reached(ls)
    ensures var l := ls[|ls| - 1];
      Happen(l, Retain) == if l.seal == Unused && |l.handles| < 64 then l.(refs := l.refs + 1, handles := l.handles + [Unused]) else l
  {
    ReachedInv(ls);
  }
}
