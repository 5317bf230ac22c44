/** The workspace registry of apps/hub/workspace.go: its fields, and each of its
    critical sections as a method proved against a function on the fields. The
    broadcast channel `changed` is its generation: closing it and making a new
    one adds one, and a sleeper holding generation g is woken when g is passed. */
module WorkspaceRegistry {
  import opened WorkspacePaths
  import opened Wrappers

  const WAITER_BUDGET := 128

  datatype Lease = Lease(id: nat, path: Path, exclusive: bool)

  predicate Conflicts(a: Lease, b: Lease) {
    (a.exclusive || b.exclusive) && Overlaps(a.path, b.path)
  }

  /** Two leases conflict exactly when one of them is exclusive and the workspace
      of one contains that of the other. */
  lemma ConflictMeans(a: Lease, b: Lease)
    ensures Conflicts(a, b) <==> (a.exclusive || b.exclusive) && (a.path <= b.path || b.path <= a.path)
  {
    OverlapIsContainment(a.path, b.path);
  }

  datatype Registry = Registry(next: nat, active: seq<Lease>, waiting: seq<Lease>, generation: nat)

  /** What one pass through the body of `acquire`'s loop does. */
  datatype Outcome = Rejected | Cancelled | Admitted(lease: Lease) | Asleep(id: nat, generation: nat)

  // ------------------------------------------------ specification functions

  function Without(s: seq<Lease>, id: nat): (r: seq<Lease>)
    ensures |s| - 1 <= |r| <= |s|
  {
    if s == [] then [] else if s[0].id == id then s[1..] else [s[0]] + Without(s[1..], id)
  }

  predicate ClearOf(leases: seq<Lease>, request: Lease) {
    forall l :: l in leases ==> !Conflicts(l, request)
  }

  /** No conflicting request waits in front of `request`. */
  predicate ClearAhead(waiting: seq<Lease>, request: Lease) {
    waiting == [] || waiting[0].id == request.id ||
    (!Conflicts(waiting[0], request) && ClearAhead(waiting[1..], request))
  }

  predicate Admissible(r: Registry, request: Lease) {
    ClearOf(r.active, request) && ClearAhead(r.waiting, request)
  }

  /** One pass through the loop of `acquire` under the lock. */
  function Attempt(r: Registry, request: Lease, cancelled: bool): (Registry, Outcome) {
    if cancelled then
      (r.(waiting := Without(r.waiting, request.id), generation := r.generation + 1), Cancelled)
    else if Admissible(r, request) then
      (r.(waiting := Without(r.waiting, request.id), active := r.active + [request]), Admitted(request))
    else
      (r, Asleep(request.id, r.generation))
  }

  /** Arrival up to the first release of the lock. */
  function Enter(r: Registry, path: Option<Path>, exclusive: bool, cancelled: bool): (Registry, Outcome) {
    if path.None? || |r.waiting| >= WAITER_BUDGET then (r, Rejected)
    else
      var request := Lease(r.next + 1, path.value, exclusive);
      Attempt(r.(next := r.next + 1, waiting := r.waiting + [request]), request, cancelled)
  }

  /** The release closure; `sync.Once` and the search make repeated calls harmless. */
  function Released(r: Registry, id: nat): Registry {
    if exists i :: 0 <= i < |r.active| && r.active[i].id == id
    then r.(active := Without(r.active, id), generation := r.generation + 1)
    else r
  }

  predicate Increasing(s: seq<Lease>) {
    forall i, j :: 0 <= i < j < |s| ==> s[i].id < s[j].id
  }

  predicate DistinctIds(s: seq<Lease>) {
    forall i, j :: 0 <= i < j < |s| ==> s[i].id != s[j].id
  }

  lemma {:induction false} WithoutAbsent(s: seq<Lease>, id: nat)
    requires forall l :: l in s ==> l.id != id
    ensures Without(s, id) == s
  {
    if s != [] { WithoutAbsent(s[1..], id); }
  }

  lemma {:induction false} WithoutAt(s: seq<Lease>, k: nat)
    requires k < |s| && forall i :: 0 <= i < k ==> s[i].id != s[k].id
    ensures Without(s, s[k].id) == s[..k] + s[k + 1..]
  {
    if k > 0 {
      WithoutAt(s[1..], k - 1);
      assert s[..k] == [s[0]] + s[1..][..k - 1];
    }
  }

  lemma WithoutIndex(s: seq<Lease>, k: nat, i: nat)
    requires k < |s| && Without(s, s[k].id) == s[..k] + s[k + 1..] && i < |s| - 1
    ensures Without(s, s[k].id)[i] == s[if i < k then i else i + 1]
  {
  }

  lemma WithoutOrdered(s: seq<Lease>, id: nat)
    requires DistinctIds(s)
    ensures DistinctIds(Without(s, id))
    ensures Increasing(s) ==> Increasing(Without(s, id))
  {
    if k :| 0 <= k < |s| && s[k].id == id {
      WithoutAt(s, k);
      var r := Without(s, id);
      forall i, j | 0 <= i < j < |r|
        ensures r[i].id != r[j].id && (Increasing(s) ==> r[i].id < r[j].id)
      {
        WithoutIndex(s, k, i);
        WithoutIndex(s, k, j);
      }
    } else {
      WithoutAbsent(s, id);
    }
  }

  lemma WithoutMembers(s: seq<Lease>, id: nat)
    requires DistinctIds(s)
    ensures forall l :: l in Without(s, id) <==> l in s && l.id != id
  {
    if k :| 0 <= k < |s| && s[k].id == id {
      WithoutAt(s, k);
      var r := Without(s, id);
      forall l | l in s && l.id != id ensures l in r {
        var i :| 0 <= i < |s| && s[i] == l;
        WithoutIndex(s, k, if i < k then i else i - 1);
      }
      forall l | l in r ensures l in s && l.id != id {
        var i :| 0 <= i < |r| && r[i] == l;
        WithoutIndex(s, k, i);
      }
    } else {
      WithoutAbsent(s, id);
    }
  }

  lemma {:induction false} ClearAheadAppend(a: seq<Lease>, b: seq<Lease>, request: Lease)
    requires forall i :: 0 <= i < |a| ==> a[i].id != request.id
    ensures ClearAhead(a + b, request) <==> ClearOf(a, request) && ClearAhead(b, request)
  {
    if a == [] {
      assert a + b == b;
    } else {
      assert (a + b)[1..] == a[1..] + b;
      ClearAheadAppend(a[1..], b, request);
      assert a == [a[0]] + a[1..];
    }
  }

  // --------------------------------------------------------- the Go object

  class WorkspaceRegistry {
    var next: nat
    var active: seq<Lease>
    var waiting: seq<Lease>
    var changed: nat

    function State(): Registry
      reads this
    {
      Registry(next, active, waiting, changed)
    }

    constructor ()
      ensures State() == Registry(0, [], [], 0)
    {
      next, active, waiting, changed := 0, [], [], 0;
    }

    method Notify()
      modifies this`changed
      ensures changed == old(changed) + 1
    {
      changed := changed + 1;
    }

    method Remove(id: nat)
      modifies this`waiting
      ensures waiting == Without(old(waiting), id)
    {
      for i := 0 to |waiting|
        invariant forall k :: 0 <= k < i ==> waiting[k].id != id
        invariant waiting == old(waiting)
      {
        if waiting[i].id == id {
          WithoutAt(waiting, i);
          waiting := waiting[..i] + waiting[i + 1..];
          return;
        }
      }
      assert forall l :: l in waiting ==> l.id != id;
      WithoutAbsent(waiting, id);
    }

    /** The two scans of `acquire`, each stopping at its first conflict. */
    method Allowed(request: Lease) returns (allowed: bool)
      ensures allowed <==> Admissible(State(), request)
    {
      for i := 0 to |active|
        invariant ClearOf(active[..i], request)
      {
        if Conflicts(active[i], request) { return false; }
        assert active[..i + 1] == active[..i] + [active[i]];
      }
      assert active[..|active|] == active;
      for i := 0 to |waiting|
        invariant forall k :: 0 <= k < i ==> waiting[k].id != request.id
        invariant ClearOf(waiting[..i], request)
      {
        ClearAheadAppend(waiting[..i], waiting[i..], request);
        assert waiting == waiting[..i] + waiting[i..];
        if waiting[i].id == request.id { return true; }
        if Conflicts(waiting[i], request) { return false; }
        assert waiting[..i + 1] == waiting[..i] + [waiting[i]];
      }
      ClearAheadAppend(waiting, [], request);
      assert waiting + [] == waiting;
      assert waiting[..|waiting|] == waiting;
      return true;
    }

    method Try(request: Lease, cancelled: bool) returns (outcome: Outcome)
      modifies this
      ensures (State(), outcome) == Attempt(old(State()), request, cancelled)
    {
      if cancelled {
        Remove(request.id);
        Notify();
        return Cancelled;
      }
      var allowed := Allowed(request);
      if allowed {
        Remove(request.id);
        active := active + [request];
        return Admitted(request);
      }
      return Asleep(request.id, changed);
    }

    method Acquire(path: Option<Path>, exclusive: bool, cancelled: bool) returns (outcome: Outcome)
      modifies this
      ensures (State(), outcome) == Enter(old(State()), path, exclusive, cancelled)
    {
      if path.None? || |waiting| >= WAITER_BUDGET { return Rejected; }
      next := next + 1;
      var request := Lease(next, path.value, exclusive);
      waiting := waiting + [request];
      outcome := Try(request, cancelled);
    }

    method Release(id: nat)
      modifies this
      ensures State() == Released(old(State()), id)
    {
      for i := 0 to |active|
        invariant forall k :: 0 <= k < i ==> active[k].id != id
        invariant State() == old(State())
      {
        if active[i].id == id {
          WithoutAt(active, i);
          active := active[..i] + active[i + 1..];
          Notify();
          return;
        }
      }
    }
  }
}
