/** Attempt leases on a session's shell owner, extension/shell/sessions.go:66-163
    with startLocked and endRun of extension/shell/plugin.go. Every move is one
    section under the owner's lock; endRun waits for cleanup between its two. */
module ShellLease {

  const OWNER_LIMIT := 64

  type Key = (string, string)

  /** What the fence depends on of a Plugin. */
  datatype Owner = Owner(key: Key, generation: nat, reserved: bool, run: string, closed: bool, cancelled: bool)

  datatype Lease = Lease(owner: nat, generation: nat)

  /** `ending`: calls of endRun between their two locked parts. */
  datatype World = World(owners: seq<Owner>, entries: map<Key, nat>, shut: bool, leases: seq<Lease>, ending: set<(nat, string)>)

  datatype Move =
    | Bind(key: Key, same: bool, clean: bool, closes: bool, creates: bool)
    | Start(lease: nat, run: string, fits: bool)
    | EndRun(lease: nat, run: string, orderly: bool)
    | CleanedUp(lease: nat, run: string, complete: bool)
    | Release(lease: nat)
    | CloseOwner(owner: nat)
    | Reset(key: Key, complete: bool)
    | Shut

  const FRESH := World([], map[], false, [], {})

  // --------------------------------------------------- one owner, one section

  function Started(o: Owner, generation: nat, run: string, fits: bool): Owner {
    if generation != o.generation || !o.reserved then o
    else if o.closed || o.run != "" || o.cancelled || !fits || run == "" then o
    else o.(run := run)
  }

  /** First part of endRun; `orderly`: no run error and a live context. */
  function Ended(o: Owner, generation: nat, run: string, orderly: bool): Owner {
    if o.run != run || o.generation != generation then o
    else if orderly then o.(run := "")
    else o.(cancelled := true)
  }

  /** Second part of endRun: it is not fenced by the generation. */
  function AfterCleanup(o: Owner, run: string, complete: bool): Owner {
    if o.run == run && complete then o.(run := "") else o
  }

  /** Last part of Lease.Close. */
  function Released(o: Owner, generation: nat): Owner {
    if o.generation == generation && o.run == "" then o.(reserved := false) else o
  }

  function Retired(o: Owner): Owner {
    o.(closed := true, cancelled := true)
  }

  class Plugin {
    const key: Key
    var generation: nat
    var reserved: bool
    var runID: string
    var closed: bool
    var cancelled: bool

    function State(): Owner
      reads this
    {
      Owner(key, generation, reserved, runID, closed, cancelled)
    }

    constructor (session: Key)
      ensures State() == Owner(session, 0, false, "", false, false)
    {
      key, generation, reserved, runID, closed, cancelled := session, 0, false, "", false, false;
    }

    /** The end of Bind. */
    method Reserve() returns (lease: nat)
      modifies this
      ensures State() == old(State()).(reserved := true, generation := old(generation) + 1)
      ensures lease == generation
    {
      reserved := true;
      generation := generation + 1;
      lease := generation;
    }

    method OnRunStart(lease: nat, run: string, fits: bool) returns (ok: bool)
      modifies this
      ensures State() == Started(old(State()), lease, run, fits)
      ensures ok <==> State() != old(State())
    {
      if lease != generation || !reserved { return false; }
      if closed || runID != "" || cancelled || !fits || run == "" { return false; }
      runID := run;
      return true;
    }

    /** The first locked part of endRun; `cleanup` says whether the second follows. */
    method BeginEnd(lease: nat, run: string, orderly: bool) returns (cleanup: bool)
      modifies this
      ensures State() == Ended(old(State()), lease, run, orderly)
      ensures cleanup <==> old(runID) == run && old(generation) == lease && !orderly
    {
      if runID != run || generation != lease { return false; }
      if orderly {
        runID := "";
        return false;
      }
      cancelled := true;
      return true;
    }

    method FinishEnd(run: string, complete: bool)
      modifies this
      ensures State() == AfterCleanup(old(State()), run, complete)
    {
      if runID == run && complete { runID := ""; }
    }

    method Release(lease: nat)
      modifies this
      ensures State() == Released(old(State()), lease)
    {
      if generation == lease && runID == "" { reserved := false; }
    }

    method Close()
      modifies this
      ensures State() == Retired(old(State()))
    {
      closed, cancelled := true, true;
    }
  }

  // ------------------------------------------------------- the whole registry

  function Put(w: World, i: nat, o: Owner): World
    requires i < |w.owners|
  {
    w.(owners := w.owners[i := o])
  }

  /** Reserving owner `i` for a new attempt. */
  function Reserved(w: World, i: nat): World
    requires i < |w.owners|
  {
    var o := w.owners[i];
    Put(w, i, o.(reserved := true, generation := o.generation + 1))
      .(leases := w.leases + [Lease(i, o.generation + 1)])
  }

  function Created(w: World, key: Key, creates: bool): World {
    if |w.entries| >= OWNER_LIMIT || !creates then w
    else
      var i := |w.owners|;
      Reserved(w.(owners := w.owners + [Owner(key, 0, false, "", false, false)], entries := w.entries[key := i]), i)
  }

  function Bound(w: World, key: Key, same: bool, clean: bool, closes: bool, creates: bool): World {
    if w.shut then w
    else if key !in w.entries then Created(w, key, creates)
    else
      var i := w.entries[key];
      if i >= |w.owners| then w
      else
        var o := w.owners[i];
        if o.reserved || o.run != "" then w
        else if same && !o.closed && !o.cancelled then Reserved(w, i)
        else if !clean then w
        else if !closes then Put(w, i, Retired(o))
        else Created(Put(w, i, Retired(o)).(entries := w.entries - {key}), key, creates)
  }

  predicate HasOwner(w: World, lease: nat) {
    lease < |w.leases| && w.leases[lease].owner < |w.owners|
  }

  function Next(w: World, move: Move): World {
    match move
    case Bind(key, same, clean, closes, creates) => Bound(w, key, same, clean, closes, creates)
    case Start(lease, run, fits) =>
      if !HasOwner(w, lease) then w
      else var l := w.leases[lease]; Put(w, l.owner, Started(w.owners[l.owner], l.generation, run, fits))
    case EndRun(lease, run, orderly) =>
      if !HasOwner(w, lease) then w
      else
        var l := w.leases[lease];
        var o := w.owners[l.owner];
        var ended := Put(w, l.owner, Ended(o, l.generation, run, orderly));
        if o.run == run && o.generation == l.generation && !orderly then ended.(ending := w.ending + {(lease, run)}) else ended
    case CleanedUp(lease, run, complete) =>
      if !HasOwner(w, lease) || (lease, run) !in w.ending then w
      else
        var i := w.leases[lease].owner;
        Put(w, i, AfterCleanup(w.owners[i], run, complete)).(ending := w.ending - {(lease, run)})
    case Release(lease) =>
      if !HasOwner(w, lease) then w
      else var l := w.leases[lease]; Put(w, l.owner, Released(w.owners[l.owner], l.generation))
    case CloseOwner(i) => if i < |w.owners| then Put(w, i, Retired(w.owners[i])) else w
    case Reset(key, complete) =>
      if key !in w.entries || w.entries[key] >= |w.owners| || w.owners[w.entries[key]].reserved then w
      else
        var closed := Put(w, w.entries[key], Retired(w.owners[w.entries[key]]));
        if complete then closed.(entries := w.entries - {key}) else closed
    case Shut => w.(shut := true)
  }

  /** A lease that its attempt may still use. */
  predicate Live(w: World, lease: nat) {
    HasOwner(w, lease) &&
    var o := w.owners[w.leases[lease].owner];
    o.reserved && o.generation == w.leases[lease].generation
  }

  // ------------------------------------------------------------- invariant

  predicate OwnerInv(w: World, i: nat)
    requires i < |w.owners|
  {
    var o := w.owners[i];
    && (o.run != "" ==> o.reserved)
    && (o.reserved ==> o.key in w.entries && w.entries[o.key] == i)
  }

  predicate LeaseInv(w: World, k: nat)
    requires k < |w.leases|
  {
    var l := w.leases[k];
    && l.owner < |w.owners| && l.generation <= w.owners[l.owner].generation
    && forall j :: k < j < |w.leases| && w.leases[j].owner == l.owner ==> l.generation < w.leases[j].generation
  }

  /** An end in progress is of a cancelled owner, and of the lease its run belongs to. */
  predicate EndingInv(w: World, lease: nat, run: string) {
    && HasOwner(w, lease) && run != ""
    && var o := w.owners[w.leases[lease].owner];
    && o.cancelled
    && (o.run == "" || (o.run == run && o.generation == w.leases[lease].generation))
  }

  ghost predicate Inv(w: World) {
    && (forall i :: 0 <= i < |w.owners| ==> OwnerInv(w, i))
    && (forall key :: key in w.entries ==> w.entries[key] < |w.owners| && w.owners[w.entries[key]].key == key)
    && (forall k :: 0 <= k < |w.leases| ==> LeaseInv(w, k))
    && (forall lease, run :: (lease, run) in w.ending ==> EndingInv(w, lease, run))
  }

  /** The runtime's run identities are not empty. */
  predicate Named(move: Move) {
    move.EndRun? ==> move.run != ""
  }

  // --------------------------------------------------- every move keeps it

  /** Changing one owner without changing its key, starting no run unless it is
      reserved, and giving up no reservation of a running owner. */
  lemma PutKeeps(w: World, i: nat, o: Owner)
    requires Inv(w) && i < |w.owners|
    requires o.key == w.owners[i].key && o.generation == w.owners[i].generation
    requires (o.run != "" ==> o.reserved) && (o.reserved ==> w.owners[i].reserved)
    requires w.owners[i].cancelled ==> o.cancelled && (o.run == "" || o.run == w.owners[i].run)
    ensures Inv(Put(w, i, o))
  {
    var v := Put(w, i, o);
    forall j | 0 <= j < |v.owners| ensures OwnerInv(v, j) { assert OwnerInv(w, j); }
    forall k | 0 <= k < |v.leases| ensures LeaseInv(v, k) { assert LeaseInv(w, k); }
    forall lease, run | (lease, run) in v.ending ensures EndingInv(v, lease, run) {
      assert EndingInv(w, lease, run);
    }
  }

  lemma ReservedKeeps(w: World, i: nat)
    requires Inv(w) && i < |w.owners| && w.owners[i].run == "" && !w.owners[i].reserved && !w.owners[i].cancelled
    requires w.owners[i].key in w.entries && w.entries[w.owners[i].key] == i
    ensures Inv(Reserved(w, i))
  {
    var v := Reserved(w, i);
    forall j | 0 <= j < |v.owners| ensures OwnerInv(v, j) { assert OwnerInv(w, j); }
    forall k | 0 <= k < |v.leases| ensures LeaseInv(v, k) {
      if k < |w.leases| { assert LeaseInv(w, k); }
    }
    forall lease, run | (lease, run) in v.ending ensures EndingInv(v, lease, run) {
      assert EndingInv(w, lease, run);
    }
  }

  lemma CreatedKeeps(w: World, key: Key, creates: bool)
    requires Inv(w) && key !in w.entries
    ensures Inv(Created(w, key, creates))
  {
    if |w.entries| < OWNER_LIMIT && creates {
      var i := |w.owners|;
      var v := w.(owners := w.owners + [Owner(key, 0, false, "", false, false)], entries := w.entries[key := i]);
      assert Inv(v) by {
        forall j | 0 <= j < |v.owners| ensures OwnerInv(v, j) {
          if j < i { assert OwnerInv(w, j); }
        }
        forall k | 0 <= k < |v.leases| ensures LeaseInv(v, k) { assert LeaseInv(w, k); }
        forall lease, run | (lease, run) in v.ending ensures EndingInv(v, lease, run) {
          assert EndingInv(w, lease, run);
        }
      }
      ReservedKeeps(v, i);
    }
  }

  lemma ForgottenKeeps(w: World, key: Key)
    requires Inv(w) && key in w.entries && !w.owners[w.entries[key]].reserved
    ensures Inv(w.(entries := w.entries - {key}))
  {
    var v := w.(entries := w.entries - {key});
    forall j | 0 <= j < |v.owners| ensures OwnerInv(v, j) { assert OwnerInv(w, j); }
    forall k | 0 <= k < |v.leases| ensures LeaseInv(v, k) { assert LeaseInv(w, k); }
    forall lease, run | (lease, run) in v.ending ensures EndingInv(v, lease, run) {
      assert EndingInv(w, lease, run);
    }
  }

  lemma RetiredKeeps(w: World, i: nat)
    requires Inv(w) && i < |w.owners|
    ensures Inv(Put(w, i, Retired(w.owners[i])))
  {
    hide Inv;
    assert OwnerInv(w, i) by { InvOwner(w, i); }
    PutKeeps(w, i, Retired(w.owners[i]));
  }

  lemma InvOwner(w: World, i: nat)
    requires Inv(w) && i < |w.owners|
    ensures OwnerInv(w, i)
  {
  }

  lemma BoundKeeps(w: World, key: Key, same: bool, clean: bool, closes: bool, creates: bool)
    requires Inv(w)
    ensures Inv(Bound(w, key, same, clean, closes, creates))
  {
    hide Created, Reserved;
    if !w.shut {
      if key !in w.entries {
        CreatedKeeps(w, key, creates);
      } else {
        var i := w.entries[key];
        var o := w.owners[i];
        if !o.reserved && o.run == "" {
          if same && !o.closed && !o.cancelled {
            ReservedKeeps(w, i);
          } else if clean {
            RetiredKeeps(w, i);
            if closes {
              ForgottenKeeps(Put(w, i, Retired(o)), key);
              CreatedKeeps(Put(w, i, Retired(o)).(entries := w.entries - {key}), key, creates);
            }
          }
        }
      }
    }
  }

  lemma EndKeeps(w: World, lease: nat, run: string, orderly: bool)
    requires Inv(w) && run != ""
    ensures Inv(Next(w, EndRun(lease, run, orderly)))
  {
    if HasOwner(w, lease) {
      var l := w.leases[lease];
      var o := w.owners[l.owner];
      InvOwner(w, l.owner);
      var v := Put(w, l.owner, Ended(o, l.generation, run, orderly));
      PutKeeps(w, l.owner, Ended(o, l.generation, run, orderly));
      if o.run == run && o.generation == l.generation && !orderly {
        EndingMore(v, lease, run);
      }
    }
  }

  lemma EndingMore(w: World, lease: nat, run: string)
    requires Inv(w) && EndingInv(w, lease, run)
    ensures Inv(w.(ending := w.ending + {(lease, run)}))
  {
    var v := w.(ending := w.ending + {(lease, run)});
    forall j | 0 <= j < |v.owners| ensures OwnerInv(v, j) { assert OwnerInv(w, j); }
    forall k | 0 <= k < |v.leases| ensures LeaseInv(v, k) { assert LeaseInv(w, k); }
    forall l, r | (l, r) in v.ending ensures EndingInv(v, l, r) {
      assert EndingInv(w, l, r);
    }
  }

  lemma EndingLess(w: World, lease: nat, run: string)
    requires Inv(w)
    ensures Inv(w.(ending := w.ending - {(lease, run)}))
  {
    var v := w.(ending := w.ending - {(lease, run)});
    forall j | 0 <= j < |v.owners| ensures OwnerInv(v, j) { assert OwnerInv(w, j); }
    forall k | 0 <= k < |v.leases| ensures LeaseInv(v, k) { assert LeaseInv(w, k); }
    forall l, r | (l, r) in v.ending ensures EndingInv(v, l, r) {
      assert EndingInv(w, l, r);
    }
  }

  /** Every move, taken in any state that satisfies the invariant, keeps it. */
  lemma MoveKeepsInv(w: World, move: Move)
    requires Inv(w) && Named(move)
    ensures Inv(Next(w, move))
  {
    hide Inv, Bound, OwnerInv;
    match move {
      case Bind(key, same, clean, closes, creates) => BoundKeeps(w, key, same, clean, closes, creates);
      case Start(lease, run, fits) =>
        if HasOwner(w, lease) {
          var l := w.leases[lease];
          OwnerRunReserved(w, l.owner);
          PutKeeps(w, l.owner, Started(w.owners[l.owner], l.generation, run, fits));
        }
      case EndRun(lease, run, orderly) => EndKeeps(w, lease, run, orderly);
      case CleanedUp(lease, run, complete) =>
        if HasOwner(w, lease) && (lease, run) in w.ending {
          var i := w.leases[lease].owner;
          OwnerRunReserved(w, i);
          PutKeeps(w, i, AfterCleanup(w.owners[i], run, complete));
          EndingLess(Put(w, i, AfterCleanup(w.owners[i], run, complete)), lease, run);
        }
      case Release(lease) =>
        if HasOwner(w, lease) {
          var l := w.leases[lease];
          OwnerRunReserved(w, l.owner);
          PutKeeps(w, l.owner, Released(w.owners[l.owner], l.generation));
        }
      case CloseOwner(i) => if i < |w.owners| { RetiredKeeps(w, i); }
      case Reset(key, complete) => ResetKeeps(w, key, complete);
      case Shut => ShutKeeps(w);
    }
  }

  lemma OwnerRunReserved(w: World, i: nat)
    requires Inv(w) && i < |w.owners|
    ensures w.owners[i].run != "" ==> w.owners[i].reserved
  {
    InvOwner(w, i);
  }

  lemma ResetKeeps(w: World, key: Key, complete: bool)
    requires Inv(w)
    ensures Inv(Next(w, Reset(key, complete)))
  {
    if key in w.entries && !w.owners[w.entries[key]].reserved {
      RetiredKeeps(w, w.entries[key]);
      if complete { ForgottenKeeps(Put(w, w.entries[key], Retired(w.owners[w.entries[key]])), key); }
    }
  }

  lemma ShutKeeps(w: World)
    requires Inv(w)
    ensures Inv(w.(shut := true))
  {
    var v := w.(shut := true);
    forall j | 0 <= j < |v.owners| ensures OwnerInv(v, j) { assert OwnerInv(w, j); }
    forall k | 0 <= k < |v.leases| ensures LeaseInv(v, k) { assert LeaseInv(w, k); }
    forall l, r | (l, r) in v.ending ensures EndingInv(v, l, r) {
      assert EndingInv(w, l, r);
    }
  }

  function After(w: World, moves: seq<Move>): World
    decreases |moves|
  {
    if moves == [] then w else After(Next(w, moves[0]), moves[1..])
  }

  lemma {:induction false} AfterKeepsInv(w: World, moves: seq<Move>)
    requires Inv(w) && forall m :: m in moves ==> Named(m)
    ensures Inv(After(w, moves))
    decreases |moves|
  {
    hide Inv, Next;
    if moves != [] {
      MoveKeepsInv(w, moves[0]);
      AfterKeepsInv(Next(w, moves[0]), moves[1..]);
    }
  }

  // -------------------------------------------------------------- theorems

  /** Two attempts never hold live leases of one native session. */
  lemma AtMostOneLive(moves: seq<Move>, a: nat, b: nat)
    requires forall m :: m in moves ==> Named(m)
    requires var w := After(FRESH, moves);
      Live(w, a) && Live(w, b) && w.owners[w.leases[a].owner].key == w.owners[w.leases[b].owner].key
    ensures a == b
  {
    AfterKeepsInv(FRESH, moves);
    var w := After(FRESH, moves);
    hide After;
    assert OwnerInv(w, w.leases[a].owner) && OwnerInv(w, w.leases[b].owner);
    assert LeaseInv(w, a) && LeaseInv(w, b);
  }

  /** Whatever a stale lease does, in whatever order its calls finish, changes
      no owner: not the run, the reservation or the life of a newer attempt. */
  lemma StaleIsHarmless(moves: seq<Move>, move: Move, lease: nat)
    requires Named(move) && forall m :: m in moves ==> Named(m)
    requires move.Start? || move.EndRun? || move.CleanedUp? || move.Release?
    requires move.lease == lease && !Live(After(FRESH, moves), lease)
    ensures var w := After(FRESH, moves);
      Next(w, move).owners == w.owners && Next(w, move).entries == w.entries && Next(w, move).leases == w.leases
  {
    AfterKeepsInv(FRESH, moves);
    var w := After(FRESH, moves);
    hide After;
    if HasOwner(w, lease) {
      InvOwner(w, w.leases[lease].owner);
      if move.CleanedUp? && (lease, move.run) in w.ending {
        assert EndingInv(w, lease, move.run);
      }
    }
  }

  /** Generations and leases only grow, and a reservation without a new
      generation is never gained. */
  ghost predicate Ages(w: World, v: World) {
    && |w.owners| <= |v.owners| && w.leases <= v.leases
    && forall i :: 0 <= i < |w.owners| ==>
         && w.owners[i].generation <= v.owners[i].generation
         && (w.owners[i].generation == v.owners[i].generation && v.owners[i].reserved ==> w.owners[i].reserved)
  }

  lemma CreatedAges(w: World, key: Key, creates: bool)
    ensures Ages(w, Created(w, key, creates))
  {
  }

  lemma BoundAges(w: World, key: Key, same: bool, clean: bool, closes: bool, creates: bool)
    ensures Ages(w, Bound(w, key, same, clean, closes, creates))
  {
    hide Created;
    CreatedAges(w, key, creates);
    if key in w.entries && w.entries[key] < |w.owners| {
      var i := w.entries[key];
      CreatedAges(Put(w, i, Retired(w.owners[i])).(entries := w.entries - {key}), key, creates);
    }
  }

  lemma NextAges(w: World, move: Move)
    ensures Ages(w, Next(w, move))
  {
    hide Bound;
    if move.Bind? { BoundAges(w, move.key, move.same, move.clean, move.closes, move.creates); }
  }

  /** A lease that is no longer live never becomes live again. */
  lemma StaleStaysStale(w: World, move: Move, lease: nat)
    requires Inv(w) && lease < |w.leases| && !Live(w, lease)
    ensures !Live(Next(w, move), lease)
  {
    hide Next;
    NextAges(w, move);
    assert LeaseInv(w, lease);
  }

  /** A new lease is live, and is issued only when its session had none. */
  lemma BindFences(w: World, move: Move)
    requires Inv(w) && move.Bind? && |Next(w, move).leases| > |w.leases|
    ensures var v := Next(w, move);
      && |v.leases| == |w.leases| + 1 && Live(v, |w.leases|) && v.owners[v.leases[|w.leases|].owner].key == move.key
    ensures forall k :: 0 <= k < |w.leases| && Live(w, k) ==> w.owners[w.leases[k].owner].key != move.key
  {
    forall k | 0 <= k < |w.leases| && Live(w, k) ensures w.owners[w.leases[k].owner].key != move.key {
      InvOwner(w, w.leases[k].owner);
    }
  }

  // --------------------------------------------------------- what a call achieves

  /** Bind issues a lease exactly while the registry is open and nobody holds the
      session: for an owner of the same recipe that still lives, or for a new one
      if there was none or the old one is clean and closes, and 64 are not exceeded. */
  lemma BindsExactly(w: World, move: Move)
    requires Inv(w) && move.Bind?
    ensures var v := Next(w, move);
      var bound := move.key in w.entries;
      var idle := bound && !w.owners[w.entries[move.key]].reserved && w.owners[w.entries[move.key]].run == "";
      var alive := bound && !w.owners[w.entries[move.key]].closed && !w.owners[w.entries[move.key]].cancelled;
      && (|v.leases| > |w.leases| <==>
            && !w.shut
            && (if !bound then move.creates && |w.entries| < 64
                else idle && ((move.same && alive) || (move.clean && move.closes && move.creates && |w.entries| <= 64))))
      && (|v.leases| > |w.leases| ==>
            && |v.leases| == |w.leases| + 1
            && (v.leases[|w.leases|].owner < |w.owners| <==> bound && move.same && alive)
            && (v.leases[|w.leases|].owner < |w.owners| ==> v.leases[|w.leases|].owner == w.entries[move.key]))
      && (bound && !(idle && move.clean && !(move.same && alive)) && |v.leases| == |w.leases| ==> v.owners == w.owners)
  {
    if move.key in w.entries {
      var rest := w.entries - {move.key};
      assert rest.Keys == w.entries.Keys - {move.key};
      assert |rest.Keys| == |w.entries.Keys| - 1;
    }
  }

  /** An owner is rebound only with the same recipe and while it lives; any other
      is retired before its session gets a new one. */
  lemma RebindsOnlyTheSame(w: World, move: Move)
    requires Inv(w) && move.Bind? && move.key in w.entries && |Next(w, move).leases| > |w.leases|
    ensures var i, v := w.entries[move.key], Next(w, move);
      if move.same && !w.owners[i].closed && !w.owners[i].cancelled
      then v.entries == w.entries && v.owners[i].reserved && v.owners[i].generation == w.owners[i].generation + 1
      else v.entries[move.key] == |w.owners| && v.owners[i].closed && v.owners[i].cancelled && !v.owners[i].reserved
  {
  }

  /** A live lease starts a run exactly if its owner is open, idle and not
      cancelled, and the context fits and the run is named. */
  lemma StartsExactly(w: World, lease: nat, run: string, fits: bool)
    requires Live(w, lease) && run != ""
    ensures var i := w.leases[lease].owner;
      var o, o' := w.owners[i], Next(w, Start(lease, run, fits)).owners[i];
      && (o'.run == run && o.run == "" <==> !o.closed && !o.cancelled && o.run == "" && fits)
      && (o' == o || o' == o.(run := run))
  {
  }

  /** An idle live lease gives its reservation up, and a running one keeps it. */
  lemma ReleasesExactly(w: World, lease: nat)
    requires Live(w, lease)
    ensures var i, v := w.leases[lease].owner, Next(w, Release(lease));
      && (w.owners[i].run == "" ==> !Live(v, lease) && v.owners[i] == w.owners[i].(reserved := false))
      && (w.owners[i].run != "" ==> Live(v, lease) && v == w)
  {
  }

  /** The run of a live lease ends at once when it ends in order; otherwise its
      owner is cancelled, and the run ends when cleanup is complete. */
  lemma EndsExactly(w: World, lease: nat, run: string, orderly: bool, complete: bool)
    requires Inv(w) && Live(w, lease) && w.owners[w.leases[lease].owner].run == run != ""
    ensures var i := w.leases[lease].owner;
      var v := Next(w, EndRun(lease, run, orderly));
      var after := Next(v, CleanedUp(lease, run, complete));
      if orderly then v.owners[i].run == "" && v.owners[i].cancelled == w.owners[i].cancelled
      else v.owners[i].run == run && v.owners[i].cancelled && (after.owners[i].run == "" <==> complete)
  {
    assert OwnerInv(w, w.leases[lease].owner);
  }

  /** A reset closes the owner of a session that no attempt holds, and forgets it
      once its cleanup is complete; a held or unknown session it leaves alone. */
  lemma ResetsExactly(w: World, key: Key, complete: bool)
    requires Inv(w)
    ensures var v := Next(w, Reset(key, complete));
      if key in w.entries && !w.owners[w.entries[key]].reserved then
        && v.owners[w.entries[key]].closed && v.owners[w.entries[key]].cancelled && v.leases == w.leases
        && v.entries.Keys == (if complete then w.entries.Keys - {key} else w.entries.Keys)
        && forall i :: 0 <= i < |w.owners| && i != w.entries[key] ==> v.owners[i] == w.owners[i]
      else v == w
  {
  }
}
