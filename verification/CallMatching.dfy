/** Which historical tool calls count as executed: the matching of calls and
    results in harness/context.go:60-78, on the blocks read in order. */
module CallMatching {

  datatype Role = User | Assistant | Tool | System

  datatype Mark = IsCall(id: string) | IsResult(id: string) | Neither

  // ------------------------------------------------------------ what is meant

  /** No result for `id` strictly between blocks `k` and `q`. */
  predicate Quiet(marks: seq<Mark>, id: string, k: nat, q: nat)
    requires q <= |marks|
  {
    forall r :: k < r < q ==> marks[r] != IsResult(id)
  }

  /** Block `k` is a call with `id` still unanswered at block `q`. */
  predicate Since(marks: seq<Mark>, id: string, k: nat, q: nat)
    requires q <= |marks|
  {
    k < q && marks[k] == IsCall(id) && Quiet(marks, id, k, q)
  }

  /** The result in block `q` answers the call in block `k`, the only call with
      its identity since the previous result for it. */
  predicate AnsweredBy(marks: seq<Mark>, k: nat, q: nat)
    requires k < |marks| && q < |marks|
  {
    && marks[k].IsCall? && marks[q] == IsResult(marks[k].id)
    && Since(marks, marks[k].id, k, q)
    && forall m: nat :: m < q && m != k ==> !Since(marks, marks[k].id, m, q)
  }

  ghost predicate Answered(marks: seq<Mark>, k: nat)
    requires k < |marks|
  {
    exists q: nat :: q < |marks| && AnsweredBy(marks, k, q)
  }

  // -------------------------------------------------------- what is computed

  /** The unanswered calls with `id`, in order: `pending[id]`. */
  function Pending(marks: seq<Mark>, id: string): (r: seq<nat>)
    ensures forall k :: k in r ==> k < |marks|
  {
    if marks == [] then []
    else
      var n := |marks| - 1;
      if marks[n] == IsCall(id) then Pending(marks[..n], id) + [n]
      else if marks[n] == IsResult(id) then []
      else Pending(marks[..n], id)
  }

  /** The calls found executed, in the order of their results. */
  function Executed(marks: seq<Mark>): (r: seq<nat>)
    ensures forall k :: k in r ==> k < |marks|
  {
    if marks == [] then []
    else
      var n := |marks| - 1;
      var before := Executed(marks[..n]);
      if marks[n].IsResult? && |Pending(marks[..n], marks[n].id)| == 1 then before + Pending(marks[..n], marks[n].id)
      else before
  }

  // -------------------------------------------------------------------- proofs

  predicate Ascending(s: seq<nat>) {
    forall i, j :: 0 <= i < j < |s| ==> s[i] < s[j]
  }

  lemma {:induction false} PendingMeans(marks: seq<Mark>, id: string)
    ensures Ascending(Pending(marks, id))
    ensures forall k: nat :: k in Pending(marks, id) <==> Since(marks, id, k, |marks|)
    decreases |marks|
  {
    if marks != [] {
      var n := |marks| - 1;
      PendingMeans(marks[..n], id);
      var before := Pending(marks[..n], id);
      assert forall i :: 0 <= i < |before| ==> before[i] in before;
      forall k: nat ensures k in Pending(marks, id) <==> Since(marks, id, k, n + 1) {
        SinceNext(marks, id, k, n);
      }
    }
  }

  lemma SinceNext(marks: seq<Mark>, id: string, k: nat, n: nat)
    requires n == |marks| - 1
    ensures Since(marks, id, k, n + 1) <==>
      (k == n && marks[n] == IsCall(id)) || (marks[n] != IsResult(id) && Since(marks[..n], id, k, n))
    ensures Since(marks, id, k, n) <==> Since(marks[..n], id, k, n)
  {
    assert forall r :: 0 <= r < n ==> marks[..n][r] == marks[r];
    if Since(marks[..n], id, k, n) {
      assert forall r :: k < r < n ==> marks[..n][r] == marks[r];
    }
  }

  /** What a prefix answers stays answered, by the same result. */
  lemma AnsweredByPrefix(marks: seq<Mark>, k: nat, q: nat, n: nat)
    requires k < n && q < n && n <= |marks|
    ensures AnsweredBy(marks, k, q) == AnsweredBy(marks[..n], k, q)
  {
    assert forall id, m: nat :: Since(marks, id, m, q) == Since(marks[..n], id, m, q);
  }

  lemma AnsweredNext(marks: seq<Mark>, k: nat)
    requires marks != [] && k < |marks| - 1
    ensures var n := |marks| - 1;
      Answered(marks, k) <==> Answered(marks[..n], k) || AnsweredBy(marks, k, n)
  {
    hide AnsweredBy;
    var n := |marks| - 1;
    forall q: nat | q < n ensures AnsweredBy(marks, k, q) == AnsweredBy(marks[..n], k, q) {
      AnsweredByPrefix(marks, k, q, n);
    }
  }

  /** The last result answers a call exactly when it is the one pending call. */
  lemma LastAnswers(marks: seq<Mark>, k: nat)
    requires marks != [] && k < |marks| - 1
    ensures var n := |marks| - 1;
      AnsweredBy(marks, k, n) <==> marks[n].IsResult? && Pending(marks[..n], marks[n].id) == [k]
  {
    var n := |marks| - 1;
    if marks[n].IsResult? {
      var id := marks[n].id;
      var p := Pending(marks[..n], id);
      PendingMeans(marks[..n], id);
      forall m: nat ensures m in p <==> Since(marks, id, m, n) {
        SinceNext(marks, id, m, n);
      }
      if AnsweredBy(marks, k, n) {
        assert k in p && forall m :: m in p ==> m == k;
        OnlyOne(p, k);
      }
      if p == [k] {
        assert k in p && marks[k] == IsCall(id);
      }
    }
  }

  lemma OnlyOne(p: seq<nat>, k: nat)
    requires Ascending(p) && k in p && forall m :: m in p ==> m == k
    ensures p == [k]
  {
    assert |p| > 1 ==> p[0] < p[1];
    assert forall i :: 0 <= i < |p| ==> p[i] in p;
  }

  /** A call is found executed exactly when a later result answers it, and once. */
  lemma {:induction false} ExecutedExactly(marks: seq<Mark>)
    ensures forall k: nat :: k < |marks| ==> (k in Executed(marks) <==> Answered(marks, k))
    ensures forall i, j :: 0 <= i < j < |Executed(marks)| ==> Executed(marks)[i] != Executed(marks)[j]
    ensures forall k :: k in Executed(marks) ==> marks[k].IsCall?
    decreases |marks|
  {
    hide Answered, AnsweredBy, Since;
    if marks != [] {
      var n := |marks| - 1;
      var prefix := marks[..n];
      ExecutedExactly(prefix);
      forall k: nat | k < |marks| ensures k in Executed(marks) <==> Answered(marks, k) {
        if k < n {
          AnsweredNext(marks, k);
          LastAnswers(marks, k);
        } else {
          NothingAnswersLast(marks);
        }
      }
      if marks[n].IsResult? && |Pending(prefix, marks[n].id)| == 1 {
        var k := Pending(prefix, marks[n].id)[0];
        PendingMeans(prefix, marks[n].id);
        assert k in Pending(prefix, marks[n].id);
        StillPending(prefix, marks[n].id, k);
      }
    }
  }

  lemma NothingAnswersLast(marks: seq<Mark>)
    requires marks != []
    ensures !Answered(marks, |marks| - 1)
  {
  }

  /** A pending call has not been answered yet. */
  lemma StillPending(marks: seq<Mark>, id: string, k: nat)
    requires Since(marks, id, k, |marks|)
    ensures marks[k] == IsCall(id) && !Answered(marks, k)
  {
  }
}
