/** Crash recovery of shell jobs, extension/shell/sessions.go:284-338. */
module ShellRecovery {
  import opened Order

  const RECOVERY_LIMIT := 64

  /** A session record as recovery reads it. `Foreign` is any record outside the
      shell's namespace, `Other` a shell record of a type recovery ignores. */
  datatype Fact =
    | Foreign
    | Malformed
    | Intent(id: string)
    | Outcome(id: string)
    | BadOutcome
    | StartFailed(id: string)
    | Abandoned(id: string)
    | Other

  datatype Result<T> = Ok(value: T) | Err(why: Refusal)

  datatype Refusal = BadFact | TooMany | AppendFailed

  // ---------------------------------------------------------- specification

  function Applied(open: set<string>, fact: Fact): set<string> {
    match fact
    case Intent(id) => if id != "" then open + {id} else open
    case Outcome(id) => open - {id}
    case StartFailed(id) => open - {id}
    case Abandoned(id) => open - {id}
    case _ => open
  }

  /** The jobs a log leaves open: the fold of its facts. */
  function Open(log: seq<Fact>): (r: Result<set<string>>)
    ensures r.Err? ==> r.why == BadFact
  {
    if log == [] then Ok({})
    else
      var before := Open(log[..|log| - 1]);
      var fact := log[|log| - 1];
      if before.Err? then before
      else if fact.Malformed? || fact.BadOutcome? then Err(BadFact)
      else Ok(Applied(before.value, fact))
  }

  function Abandonments(ids: seq<string>): (r: seq<Fact>)
    ensures |r| == |ids| && forall i :: 0 <= i < |r| ==> r[i] == Abandoned(ids[i])
  {
    seq(|ids|, i requires 0 <= i < |ids| => Abandoned(ids[i]))
  }

  /** `ids` is the given set in strictly ascending order. */
  ghost predicate Lists(ids: seq<string>, s: set<string>) {
    && Sorted(ids)
    && Distinct(ids)
    && forall id :: id in ids <==> id in s
  }

  // ----------------------------------------------------------- the Go object

  class Plugin {
    var log: seq<Fact>
    var recoveredUnknown: seq<string>

    constructor (stored: seq<Fact>)
      ensures log == stored && recoveredUnknown == []
    {
      log, recoveredUnknown := stored, [];
    }

    /** `room`: how many appends the session acknowledges before one fails;
        `stored` says whether the failing one reached the log all the same. */
    method RecoverInterrupted(room: nat, stored: bool) returns (r: Result<nat>)
      modifies this
      ensures Open(old(log)).Err? ==> r == Err(BadFact) && log == old(log)
      ensures Open(old(log)).Ok? && |Open(old(log)).value| > 64 ==> r == Err(TooMany) && log == old(log)
      ensures Open(old(log)).Ok? && |Open(old(log)).value| <= 64 ==>
                && Lists(recoveredUnknown, Open(old(log)).value)
                && (r.Ok? <==> |recoveredUnknown| <= room)
                && log == old(log) + Abandonments(if r.Ok? then recoveredUnknown else recoveredUnknown[..room + if stored then 1 else 0])
    {
      hide Applied, Open, Lists, Sort;
      var open: set<string> := {};
      NothingOpen();
      for index := 0 to |log|
        invariant log == old(log) && recoveredUnknown == old(recoveredUnknown)
        invariant Open(log[..index]) == Ok(open)
      {
        var fact := log[index];
        assert log[..index + 1] == log[..index] + [fact];
        OpenNext(log[..index], fact);
        BadStays(log, index + 1);
        match fact {
          case Malformed => return Err(BadFact);
          case BadOutcome => return Err(BadFact);
          case Intent(id) => AppliedIs(open, fact); if id != "" { open := open + {id}; }
          case Outcome(id) => AppliedIs(open, fact); open := open - {id};
          case StartFailed(id) => AppliedIs(open, fact); open := open - {id};
          case Abandoned(id) => AppliedIs(open, fact); open := open - {id};
          case _ => AppliedIs(open, fact);
        }
      }
      assert log[..|log|] == log;
      if |open| > RECOVERY_LIMIT { return Err(TooMany); }
      var ids := Keys(open);
      ids := Sort(ids);
      recoveredUnknown := ids;
      assert log == old(log) + Abandonments(ids[..0]);
      for index := 0 to |ids|
        invariant index <= room && recoveredUnknown == ids
        invariant log == old(log) + Abandonments(ids[..index])
      {
        assert Abandonments(ids[..index + 1]) == Abandonments(ids[..index]) + [Abandoned(ids[index])];
        if index < room || stored {
          log := log + [Abandoned(ids[index])];
        }
        if index == room { return Err(AppendFailed); }
      }
      assert ids[..|ids|] == ids;
      return Ok(|ids|);
    }
  }

  /** Ranging over a map visits each key once, in any order. */
  method Keys(s: set<string>) returns (ids: seq<string>)
    ensures Lists(Sort(ids), s)
  {
    hide Distinct;
    ids := [];
    var rest := s;
    NoneDistinct();
    while rest != {}
      invariant rest <= s && (forall id :: id in ids <==> id in s - rest)
      invariant Distinct(ids)
      decreases |rest|
    {
      var id :| id in rest;
      DistinctAppend(ids, id);
      ids, rest := ids + [id], rest - {id};
    }
    SortLists(ids, s);
  }

  lemma DistinctAppend(ids: seq<string>, x: string)
    requires Distinct(ids) && x !in ids
    ensures Distinct(ids + [x])
  {
  }

  lemma DistinctCons(x: string, ids: seq<string>)
    ensures Distinct([x] + ids) <==> x !in ids && Distinct(ids)
  {
    var all := [x] + ids;
    assert forall i :: 0 <= i < |ids| ==> all[i + 1] == ids[i];
    if Distinct(all) {
      forall i | 0 <= i < |ids| ensures ids[i] != x {
        assert all[0] != all[i + 1];
      }
      forall i, j | 0 <= i < j < |ids| ensures ids[i] != ids[j] {
        assert all[i + 1] != all[j + 1];
      }
    }
  }

  lemma {:induction false} DistinctMultiset(ids: seq<string>)
    ensures Distinct(ids) <==> forall id :: multiset(ids)[id] <= 1
  {
    hide Distinct;
    if ids == [] {
      assert Distinct(ids) by { NoneDistinct(); }
    } else {
      var x, rest := ids[0], ids[1..];
      assert ids == [x] + rest;
      DistinctMultiset(rest);
      DistinctCons(x, rest);
      assert forall id :: multiset(ids)[id] == multiset(rest)[id] + if id == x then 1 else 0;
      assert x in rest <==> multiset(rest)[x] > 0;
      assert multiset(ids)[x] == multiset(rest)[x] + 1;
    }
  }

  lemma NoneDistinct()
    ensures Distinct([])
  {
  }

  lemma SortLists(ids: seq<string>, s: set<string>)
    requires Distinct(ids)
    requires forall id :: id in ids <==> id in s
    ensures Lists(Sort(ids), s)
  {
    SortSorted(ids);
    DistinctMultiset(ids);
    DistinctMultiset(Sort(ids));
    forall id ensures id in Sort(ids) <==> id in ids {
      assert id in Sort(ids) <==> id in multiset(Sort(ids));
    }
  }

  lemma NothingOpen()
    ensures Open([]) == Ok({})
  {
  }

  lemma AppliedIs(open: set<string>, fact: Fact)
    ensures Applied(open, fact) == match fact
      case Intent(id) => (if id != "" then open + {id} else open)
      case Outcome(id) => open - {id}
      case StartFailed(id) => open - {id}
      case Abandoned(id) => open - {id}
      case _ => open
  {
  }

  lemma {:induction false} BadStays(log: seq<Fact>, k: nat)
    requires k <= |log|
    ensures Open(log[..k]).Err? ==> Open(log) == Err(BadFact)
    decreases |log| - k
  {
    if k < |log| {
      assert log[..k + 1][..k] == log[..k];
      BadStays(log, k + 1);
    } else {
      assert log[..k] == log;
    }
  }

  // ----------------------------------------------------------- one recovery

  lemma OpenNext(log: seq<Fact>, fact: Fact)
    ensures Open(log + [fact]) ==
      if Open(log).Err? then Open(log)
      else if fact.Malformed? || fact.BadOutcome? then Err(BadFact)
      else Ok(Applied(Open(log).value, fact))
  {
    assert (log + [fact])[..|log|] == log;
  }

  /** Abandoning some jobs closes exactly those. */
  lemma {:induction false} OpenAfterAbandonments(log: seq<Fact>, ids: seq<string>)
    requires Open(log).Ok?
    ensures Open(log + Abandonments(ids)) == Ok(Open(log).value - (set id | id in ids))
    decreases |ids|
  {
    hide Open;
    var n := |ids|;
    if n == 0 {
      assert log + Abandonments(ids) == log;
      assert Open(log).value - (set id | id in ids) == Open(log).value;
    } else {
      var first := ids[..n - 1];
      OpenAfterAbandonments(log, first);
      assert log + Abandonments(ids) == (log + Abandonments(first)) + [Abandoned(ids[n - 1])];
      OpenNext(log + Abandonments(first), Abandoned(ids[n - 1]));
      assert forall id :: id in ids <==> id in first || id == ids[n - 1];
      var open := Open(log).value;
      assert (open - set id | id in first) - {ids[n - 1]} == open - set id | id in ids;
    }
  }

  /** Recovery is idempotent and tolerates a crash: after the first `k`
      abandonments exactly the other jobs are open, and after all, none. */
  lemma CrashLeavesTheRest(log: seq<Fact>, ids: seq<string>, k: nat)
    requires Open(log).Ok? && Lists(ids, Open(log).value) && k <= |ids|
    ensures Open(log + Abandonments(ids[..k])).Ok?
    ensures Lists(ids[k..], Open(log + Abandonments(ids[..k])).value)
    ensures k == |ids| ==> Open(log + Abandonments(ids[..k])) == Ok({})
  {
    OpenAfterAbandonments(log, ids[..k]);
    var left := Open(log + Abandonments(ids[..k])).value;
    SortedRest(ids, k);
    forall id ensures id in ids[k..] <==> id in left {
      SplitMembers(ids, k, id);
    }
    if k == |ids| {
      assert left == {};
    }
  }

  lemma SortedRest(ids: seq<string>, k: nat)
    requires Sorted(ids) && Distinct(ids) && k <= |ids|
    ensures Sorted(ids[k..]) && Distinct(ids[k..])
  {
    var rest := ids[k..];
    forall i, j | 0 <= i < j < |rest| ensures Le(rest[i], rest[j]) && rest[i] != rest[j] {
      assert rest[i] == ids[k + i] && rest[j] == ids[k + j];
    }
  }

  lemma SplitMembers(ids: seq<string>, k: nat, id: string)
    requires Distinct(ids) && k <= |ids|
    ensures id in ids[k..] <==> id in ids && id !in ids[..k]
  {
    if id in ids {
      var i :| 0 <= i < |ids| && ids[i] == id;
      if i < k {
        assert ids[..k][i] == id;
        assert forall j :: 0 <= j < |ids| - k ==> ids[k..][j] == ids[k + j] != id;
      } else {
        assert ids[k..][i - k] == id;
        assert forall j :: 0 <= j < k ==> ids[..k][j] == ids[j] != id;
      }
    } else {
      assert forall j :: 0 <= j < |ids| - k ==> ids[k..][j] == ids[k + j];
    }
  }

  // -------------------------------------------------------- any number of restarts

  /** What may happen to a session's log: the shell at work appends a fact, or a
      process owner restarts and its recovery appends its first `count` abandonments. */
  datatype Move = Work(fact: Fact) | Restart(ids: seq<string>, count: nat)

  predicate Closes(fact: Fact, id: string) {
    (fact.Outcome? || fact.StartFailed? || fact.Abandoned?) && fact.id == id
  }

  /** The shell at work gives each job a fresh identity, records its intent
      before anything else about it, and never records an abandonment. */
  ghost predicate Working(log: seq<Fact>, fact: Fact) {
    && !fact.Abandoned?
    && (fact.Intent? ==> Intent(fact.id) !in log)
    && (fact.Outcome? || fact.StartFailed? ==> Intent(fact.id) in log)
  }

  ghost predicate Possible(log: seq<Fact>, move: Move) {
    match move
    case Work(fact) => Working(log, fact)
    case Restart(ids, count) =>
      Open(log).Ok? && Lists(ids, Open(log).value) && |ids| <= RECOVERY_LIMIT && count <= |ids|
  }

  function NextLog(log: seq<Fact>, move: Move): seq<Fact> {
    match move
    case Work(fact) => log + [fact]
    case Restart(ids, count) => if count <= |ids| then log + Abandonments(ids[..count]) else log
  }

  ghost predicate History(logs: seq<seq<Fact>>, moves: seq<Move>) {
    && |logs| == |moves| + 1 && logs[0] == []
    && forall i :: 0 <= i < |moves| ==> Possible(logs[i], moves[i]) && logs[i + 1] == NextLog(logs[i], moves[i])
  }

  predicate ClosedIn(log: seq<Fact>, id: string) {
    exists i :: 0 <= i < |log| && Closes(log[i], id)
  }

  /** Nothing closed a job before its abandonment, and its intent came first. */
  ghost predicate RightlyAbandoned(log: seq<Fact>) {
    forall j :: 0 <= j < |log| && log[j].Abandoned? ==> Intent(log[j].id) in log[..j] && !ClosedIn(log[..j], log[j].id)
  }

  ghost predicate LogInv(log: seq<Fact>) {
    && RightlyAbandoned(log)
    && (forall id :: ClosedIn(log, id) ==> Intent(id) in log)
    && (Open(log).Ok? ==> forall id :: id in Open(log).value ==> Intent(id) in log && !ClosedIn(log, id))
  }

  lemma ClosedNext(log: seq<Fact>, fact: Fact, id: string)
    ensures ClosedIn(log + [fact], id) <==> ClosedIn(log, id) || Closes(fact, id)
  {
    var next := log + [fact];
    if ClosedIn(log, id) {
      var i :| 0 <= i < |log| && Closes(log[i], id);
      assert Closes(next[i], id);
    }
    if Closes(fact, id) { assert Closes(next[|log|], id); }
    if ClosedIn(next, id) && !Closes(fact, id) {
      var i :| 0 <= i < |next| && Closes(next[i], id);
      assert Closes(log[i], id);
    }
  }

  lemma RightlyNext(log: seq<Fact>, fact: Fact)
    requires RightlyAbandoned(log)
    requires fact.Abandoned? ==> Intent(fact.id) in log && !ClosedIn(log, fact.id)
    ensures RightlyAbandoned(log + [fact])
  {
    hide ClosedIn;
    var next := log + [fact];
    forall j | 0 <= j < |next| && next[j].Abandoned?
      ensures Intent(next[j].id) in next[..j] && !ClosedIn(next[..j], next[j].id)
    {
      if j < |log| { assert next[..j] == log[..j]; } else { assert next[..j] == log; }
    }
  }

  lemma FactKeeps(log: seq<Fact>, fact: Fact)
    requires LogInv(log)
    requires Working(log, fact) || (fact.Abandoned? && Open(log).Ok? && fact.id in Open(log).value)
    ensures LogInv(log + [fact])
  {
    hide RightlyAbandoned, ClosedIn, Open;
    RightlyNext(log, fact);
    OpenNext(log, fact);
    forall id ensures ClosedIn(log + [fact], id) <==> ClosedIn(log, id) || Closes(fact, id) {
      ClosedNext(log, fact, id);
    }
  }

  lemma {:induction false} RestartKeeps(log: seq<Fact>, ids: seq<string>, count: nat)
    requires LogInv(log) && Open(log).Ok? && Lists(ids, Open(log).value) && count <= |ids|
    ensures LogInv(log + Abandonments(ids[..count]))
    decreases count
  {
    hide LogInv, Open, Sorted;
    if count == 0 {
      assert log + Abandonments(ids[..0]) == log;
    } else {
      var k := count - 1;
      RestartKeeps(log, ids, k);
      OpenAfterAbandonments(log, ids[..k]);
      assert ids[k] !in ids[..k];
      var before := log + Abandonments(ids[..k]);
      FactKeeps(before, Abandoned(ids[k]));
      assert log + Abandonments(ids[..count]) == before + [Abandoned(ids[k])];
    }
  }

  lemma MoveKeeps(log: seq<Fact>, move: Move)
    requires LogInv(log) && Possible(log, move)
    ensures LogInv(NextLog(log, move))
  {
    hide LogInv, Open, Lists;
    match move {
      case Work(fact) => FactKeeps(log, fact);
      case Restart(ids, count) => RestartKeeps(log, ids, count);
    }
  }

  lemma {:induction false} HistoryInv(logs: seq<seq<Fact>>, moves: seq<Move>, n: nat)
    requires History(logs, moves) && n <= |moves|
    ensures LogInv(logs[n])
    decreases n
  {
    hide Possible, NextLog;
    if n > 0 {
      HistoryInv(logs, moves, n - 1);
      assert Possible(logs[n - 1], moves[n - 1]) && logs[n] == NextLog(logs[n - 1], moves[n - 1]);
      MoveKeeps(logs[n - 1], moves[n - 1]);
    }
  }

  /** Across any number of restarts, each perhaps crashing after some appends,
      a job is abandoned at most once, after its intent, and never after a
      recorded outcome or failed start. */
  lemma AbandonedAtMostOnce(logs: seq<seq<Fact>>, moves: seq<Move>, n: nat, i: nat, j: nat)
    requires History(logs, moves) && n <= |moves|
    requires i < |logs[n]| && j < |logs[n]| && logs[n][j].Abandoned?
    ensures Intent(logs[n][j].id) in logs[n][..j]
    ensures Closes(logs[n][i], logs[n][j].id) ==> i >= j
    ensures logs[n][i].Abandoned? && logs[n][i].id == logs[n][j].id ==> i == j
  {
    HistoryInv(logs, moves, n);
    var log := logs[n];
    hide History, Open;
    assert !ClosedIn(log[..j], log[j].id);
    if i < j { assert log[..j][i] == log[i]; }
    if j < i && log[i].Abandoned? {
      assert !ClosedIn(log[..i], log[i].id);
      assert log[..i][j] == log[j];
    }
  }

  // ------------------------------------------------------- which jobs are open

  /** The job's intent was recorded at `i`, and nothing has closed it since. */
  predicate OpenSince(log: seq<Fact>, id: string, i: int) {
    0 <= i < |log| && log[i] == Intent(id) && forall j :: i < j < |log| ==> !Closes(log[j], id)
  }

  predicate Readable(log: seq<Fact>) {
    forall i :: 0 <= i < |log| ==> !log[i].Malformed? && !log[i].BadOutcome?
  }

  /** Recovery reads a log exactly if no shell fact in it is malformed, and finds
      open exactly the jobs with a named intent that no outcome, failed start or
      abandonment follows. */
  lemma {:induction false} OpenMeans(log: seq<Fact>)
    ensures Open(log).Ok? <==> Readable(log)
    ensures Open(log).Ok? ==> forall id :: id in Open(log).value <==> id != "" && exists i :: OpenSince(log, id, i)
  {
    if log != [] {
      var n := |log| - 1;
      var before := log[..n];
      OpenMeans(before);
      assert before + [log[n]] == log && forall i :: 0 <= i < n ==> before[i] == log[i];
      if Readable(log) {
        forall id ensures id in Open(log).value <==> id != "" && exists i :: OpenSince(log, id, i) {
          OpenSinceNext(before, log[n], id);
        }
      }
    }
  }

  lemma OpenSinceNext(log: seq<Fact>, fact: Fact, id: string)
    ensures (exists i :: OpenSince(log + [fact], id, i)) <==>
      fact == Intent(id) || ((exists i :: OpenSince(log, id, i)) && !Closes(fact, id))
  {
    var n, next := |log|, log + [fact];
    assert next[n] == fact && forall j :: 0 <= j < n ==> next[j] == log[j];
    if i :| OpenSince(next, id, i) {
      if i < n { assert OpenSince(log, id, i); }
    }
    if fact == Intent(id) { assert OpenSince(next, id, n); }
    if i :| OpenSince(log, id, i) && !Closes(fact, id) { assert OpenSince(next, id, i); }
  }
}
