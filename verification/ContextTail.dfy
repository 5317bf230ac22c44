/** Selection of the working view from a session's newest records,
    harness/native_context.go:24-69. Records are offered newest first. */
module ContextTail {
  import opened Wrappers

  const TARGET_MESSAGES := 64
  const MAX_MESSAGES := 512
  const MAX_BYTES := 0x80_0000

  datatype Role = User | Assistant | Tool | System

  datatype Record = Record(sequence: nat, role: Role, restoreBytes: nat)

  /** `boundary` is the newest omitted record, which the notice names. */
  datatype View = NoRecords | Suffix(count: nat, boundary: Option<Record>)

  datatype Result<T> = Ok(value: T) | Err(why: Refusal)

  datatype Refusal = WrongSession | StorageFailed | OverBudget

  // ------------------------------------------- what a good working view is

  function Bytes(records: seq<Record>): nat {
    if records == [] then 0 else Bytes(records[..|records| - 1]) + records[|records| - 1].restoreBytes
  }

  /** The newest `k` records are within both budgets. */
  predicate Fits(records: seq<Record>, k: nat)
    requires k <= |records|
  {
    k <= MAX_MESSAGES && Bytes(records[..k]) <= MAX_BYTES
  }

  /** They are whole turns: they end at a user message, or nothing older was offered. */
  predicate Whole(records: seq<Record>, k: nat)
    requires k <= |records|
  {
    k > 0 && (records[k - 1].role == User || k == |records|)
  }

  predicate Admissible(records: seq<Record>, k: nat) {
    k <= |records| && Fits(records, k) && Whole(records, k)
  }

  /** Enough context: at least the target, ending at a user message. */
  predicate Enough(records: seq<Record>, k: nat) {
    Admissible(records, k) && k >= TARGET_MESSAGES && records[k - 1].role == User
  }

  /** The shortest view with enough context if there is one, else the longest admissible. */
  ghost predicate Best(records: seq<Record>, k: nat) {
    && Admissible(records, k)
    && (Enough(records, k) ==> forall j: nat :: Enough(records, j) ==> k <= j)
    && (!Enough(records, k) ==> (forall j: nat :: !Enough(records, j)) && forall j: nat :: Admissible(records, j) ==> j <= k)
  }

  /** There is at most one best view. */
  lemma BestUnique(records: seq<Record>, k: nat, j: nat)
    requires Best(records, k) && Best(records, j)
    ensures k == j
  {
    if !Enough(records, k) {
      assert !Enough(records, j);
      assert Admissible(records, j) && Admissible(records, k);
    } else {
      assert Enough(records, j);
    }
  }

  lemma {:induction false} BytesGrow(records: seq<Record>, k: nat, j: nat)
    requires k <= j <= |records|
    ensures Bytes(records[..k]) <= Bytes(records[..j])
    decreases j
  {
    if k < j {
      assert records[..j][..j - 1] == records[..j - 1];
      BytesGrow(records, k, j - 1);
    }
  }

  lemma BytesNext(records: seq<Record>, k: nat)
    requires k < |records|
    ensures Bytes(records[..k + 1]) == Bytes(records[..k]) + records[k].restoreBytes
  {
    assert records[..k + 1][..k] == records[..k];
  }

  /** Past a record that does not fit, nothing does. */
  lemma FitsDownward(records: seq<Record>, k: nat, j: nat)
    requires k <= j <= |records| && Fits(records, j)
    ensures Fits(records, k)
  {
    BytesGrow(records, k, j);
  }

  // --------------------------------------------------------------- the loop

  /** The number of records to keep, 0 when no view is admissible. */
  method Select(metadata: seq<Record>) returns (count: nat)
    requires metadata != []
    ensures count == 0 ==> forall k: nat :: !Admissible(metadata, k)
    ensures count > 0 ==> Best(metadata, count)
  {
    hide Bytes;
    var last, remaining := -1, MAX_BYTES;
    assert Bytes(metadata[..0]) == 0 by { NoBytes(metadata); }
    var stopped := false;
    for i := 0 to |metadata|
      invariant -1 <= last < i && !stopped
      invariant remaining + Bytes(metadata[..i]) == MAX_BYTES && remaining >= 0 && i <= MAX_MESSAGES
      invariant forall k: nat :: k <= i && Admissible(metadata, k) ==> k <= last + 1
      invariant last >= 0 ==> Admissible(metadata, last + 1)
      invariant forall k: nat :: k <= i ==> !Enough(metadata, k)
      invariant last >= 0 && i < |metadata| ==> metadata[last].role == User
    {
      var record := metadata[i];
      BytesNext(metadata, i);
      if i >= MAX_MESSAGES || record.restoreBytes > remaining {
        stopped := true;
        NothingPast(metadata, i + 1);
        break;
      }
      remaining := remaining - record.restoreBytes;
      if record.role == User {
        last := i;
        assert Admissible(metadata, i + 1);
        if i + 1 >= TARGET_MESSAGES {
          stopped := true;
          assert Enough(metadata, i + 1);
          break;
        }
      }
      if i == |metadata| - 1 { last := i; assert Admissible(metadata, i + 1); }
    }
    return last + 1;
  }

  lemma NoBytes(records: seq<Record>)
    ensures Bytes(records[..0]) == 0
  {
  }

  lemma NothingPast(records: seq<Record>, k: nat)
    requires k <= |records| && !Fits(records, k)
    ensures forall j :: j >= k ==> !Admissible(records, j)
  {
    hide Bytes;
    forall j: nat | j >= k ensures !Admissible(records, j) {
      if j <= |records| && Fits(records, j) { FitsDownward(records, k, j); }
    }
  }

  /** `Load`: `tail` is what storage offers; `readable` whether reading a view succeeds. */
  method Load(sameSession: bool, tail: Option<seq<Record>>, readable: nat -> bool) returns (r: Result<View>)
    ensures !sameSession ==> r == Err(WrongSession)
    ensures sameSession && tail.None? ==> r == Err(StorageFailed)
    ensures sameSession && tail == Some([]) ==> r == Ok(NoRecords)
    ensures sameSession && tail.Some? && tail.value != [] ==>
              var all := tail.value;
              && (r == Err(OverBudget) <==> forall k: nat :: !Admissible(all, k))
              && (r.Ok? ==>
                    && r.value.Suffix? && Best(all, r.value.count) && readable(r.value.count)
                    && r.value.boundary == if r.value.count < |all| then Some(all[r.value.count]) else None)
              && (r == Err(StorageFailed) ==> exists k: nat :: Best(all, k) && !readable(k))
              && r != Err(WrongSession)
  {
    if !sameSession { return Err(WrongSession); }
    if tail.None? { return Err(StorageFailed); }
    var metadata := tail.value;
    if |metadata| == 0 { return Ok(NoRecords); }
    var count := Select(metadata);
    if count == 0 { return Err(OverBudget); }
    assert Admissible(metadata, count);
    if !readable(count) { return Err(StorageFailed); }
    if count < |metadata| { return Ok(Suffix(count, Some(metadata[count]))); }
    return Ok(Suffix(count, None));
  }

  /** A view in plain numbers: at most 512 records of 8 MiB, ending at a user
      message or at the oldest record offered. If 64 or more records up to a user
      message fit, the view is the fewest such; otherwise nothing longer fits. */
  lemma ViewIs(records: seq<Record>, k: nat, j: nat)
    requires Best(records, k)
    ensures 0 < k <= 512 && k <= |records| && Bytes(records[..k]) <= 8388608
    ensures records[k - 1].role == User || k == |records|
    ensures 64 <= j <= 512 && j <= |records| && Bytes(records[..j]) <= 8388608 && records[j - 1].role == User ==>
              64 <= k <= j && records[k - 1].role == User
    ensures k < j <= 512 && j <= |records| && (records[j - 1].role == User || j == |records|) && Bytes(records[..j]) <= 8388608 ==>
              k >= 64 && records[k - 1].role == User
  {
    hide Bytes;
    if 64 <= j <= 512 && j <= |records| && Bytes(records[..j]) <= 8388608 && records[j - 1].role == User {
      assert Enough(records, j);
    }
    if k < j <= 512 && j <= |records| && (records[j - 1].role == User || j == |records|) && Bytes(records[..j]) <= 8388608 {
      assert Admissible(records, j);
    }
  }
}
