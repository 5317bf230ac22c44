/** Every interleaving of the steering queue's operations. BeforeModel drops the
    lock across the session append, so its two locked parts are separate moves
    and any number of other moves may come between them. */
module PendingHistory {
  import opened Utf8
  import opened PendingMessages

  /** `receipt` is what the session returned, `entries` what joined the request. */
  datatype Outcome = InFlight | Joined(receipt: seq<Record>, entries: seq<Entry>) | Failed

  datatype Batch = Batch(records: seq<Record>, outcome: Outcome)

  /** The queue with what the run so far has done: `texts` holds the text of
      every message ever accepted, by identity; `retracted` what Cancel said
      true to; `batches` every batch given to the session, in order. */
  datatype World = World(queue: Service, texts: seq<bytes>, retracted: set<nat>, batches: seq<Batch>)

  datatype Move =
    | EnqueueMove(text: bytes, cancelled: bool)
    | CancelMove(id: nat, cancelled: bool)
    | StartMove(run: string, fits: bool)
    | EndMove(run: string)
    | TakeMove(run: string)
    | FinishMove(flight: nat, receipt: seq<Record>, failed: bool)

  const FRESH := World(Service("", [], 0), [], {}, [])

  /** The effect of one move. A Finish for a batch not in flight is no move. */
  function Next(w: World, move: Move): World {
    match move
    case EnqueueMove(text, cancelled) =>
      var (q, answer) := Enqueued(w.queue, |w.texts|, text, cancelled);
      w.(queue := q, texts := if answer.Ok? then w.texts + [text] else w.texts)
    case CancelMove(id, cancelled) =>
      var (q, answer) := Cancelled(w.queue, id, cancelled);
      w.(queue := q, retracted := if answer == Ok(true) then w.retracted + {id} else w.retracted)
    case StartMove(run, fits) => w.(queue := RunStarted(w.queue, run, fits).0)
    case EndMove(run) => w.(queue := RunEnded(w.queue, run))
    case TakeMove(run) =>
      var (q, answer) := Taken(w.queue, run);
      if answer.Ok? && answer.value != [] then w.(queue := q, batches := w.batches + [Batch(answer.value, InFlight)])
      else w.(queue := q)
    case FinishMove(k, receipt, failed) =>
      if k < |w.batches| && w.batches[k].outcome.InFlight? then
        var (q, answer) := Finished(w.queue, w.batches[k].records, receipt, failed);
        w.(queue := q,
           batches := w.batches[k := w.batches[k].(outcome := if answer.Ok? then Joined(receipt, answer.value) else Failed)])
      else w
  }

  function After(w: World, moves: seq<Move>): World
    decreases |moves|
  {
    if moves == [] then w else After(Next(w, moves[0]), moves[1..])
  }

  // ------------------------------------------------------------- invariant

  function TotalText(ms: seq<Message>): nat {
    if ms == [] then 0 else |ms[0].text| + TotalText(ms[1..])
  }

  ghost predicate Budgets(s: Service) {
    s.bytes == TotalText(s.messages) && s.bytes <= BYTE_BUDGET && |s.messages| <= MESSAGE_BUDGET
  }

  ghost predicate Ascending(ms: seq<Message>) {
    forall i, j :: 0 <= i < j < |ms| ==> ms[i].id < ms[j].id
  }

  predicate Holds(ms: seq<Message>, id: nat) {
    Find(ms, id) < |ms|
  }

  /** The queue is in arrival order, unaltered, and nothing is ever lost:
      an accepted message is held or was retracted, never both. */
  ghost predicate QueueInv(w: World) {
    && Ascending(w.queue.messages)
    && (forall i :: 0 <= i < |w.queue.messages| ==>
          w.queue.messages[i].id < |w.texts| && w.queue.messages[i].text == w.texts[w.queue.messages[i].id])
    && (forall id | id in w.retracted :: id < |w.texts|)
    && (forall id: nat | id < |w.texts| :: Holds(w.queue.messages, id) <==> id !in w.retracted)
  }

  function StatusOf(o: Outcome): Status {
    match o case InFlight => Committing case Joined(_, _) => Committed case Failed => CommitUnknown
  }

  ghost predicate RecordInv(w: World, r: Record, o: Outcome) {
    && r.conversation && r.message
    && r.id < |w.texts| && r.text == w.texts[r.id]
    && Holds(w.queue.messages, r.id)
    && w.queue.messages[Find(w.queue.messages, r.id)].status == StatusOf(o)
  }

  /** Every batched message is still held, with the status its batch implies. */
  ghost predicate BatchInv(w: World) {
    forall k, i :: 0 <= k < |w.batches| && 0 <= i < |w.batches[k].records| ==>
      RecordInv(w, w.batches[k].records[i], w.batches[k].outcome)
  }

  /** Batches, read one after the other, are in enqueue order without repeats. */
  ghost predicate InOrder(batches: seq<Batch>) {
    forall k, i, l, j ::
      && 0 <= k < |batches| && 0 <= i < |batches[k].records|
      && 0 <= l < |batches| && 0 <= j < |batches[l].records|
      && (k < l || (k == l && i < j))
      ==> batches[k].records[i].id < batches[l].records[j].id
  }

  ghost predicate InBatches(batches: seq<Batch>, id: nat) {
    exists k :: 0 <= k < |batches| && id in Ids(batches[k].records)
  }

  /** Unread messages are younger than everything batched; the others are batched. */
  ghost predicate StatusInv(w: World) {
    && (forall m, k, i ::
          m in w.queue.messages && m.status == Unread && 0 <= k < |w.batches| && 0 <= i < |w.batches[k].records| ==>
          w.batches[k].records[i].id < m.id)
    && (forall m :: m in w.queue.messages && m.status != Unread ==> InBatches(w.batches, m.id))
  }

  /** What joined a request is the notice and the records the session returned,
      which have the identities of the batch, in its order. */
  ghost predicate JoinedInv(w: World) {
    forall k :: 0 <= k < |w.batches| ==> JoinedFaithfully(w.batches[k])
  }

  ghost predicate JoinedFaithfully(b: Batch) {
    b.outcome.Joined? ==>
      && GoodReceipt(b.records, b.outcome.receipt)
      && b.outcome.entries == [Notice] + Entries(b.outcome.receipt)
  }

  ghost predicate Inv(w: World) {
    Budgets(w.queue) && QueueInv(w) && BatchInv(w) && InOrder(w.batches) && StatusInv(w) && JoinedInv(w)
  }

  // ------------------------------------------------------- facts on sequences

  lemma {:induction false} TotalTextConcat(a: seq<Message>, b: seq<Message>)
    ensures TotalText(a + b) == TotalText(a) + TotalText(b)
  {
    if a == [] {
      assert a + b == b;
    } else {
      assert (a + b)[1..] == a[1..] + b;
      TotalTextConcat(a[1..], b);
    }
  }

  /** Changing statuses alone changes neither sizes nor where a message is found. */
  ghost predicate SameTexts(a: seq<Message>, b: seq<Message>) {
    |a| == |b| && forall i :: 0 <= i < |a| ==> a[i].id == b[i].id && a[i].text == b[i].text
  }

  lemma {:induction false} SameTextsTotal(a: seq<Message>, b: seq<Message>)
    requires SameTexts(a, b)
    ensures TotalText(a) == TotalText(b)
  {
    if a != [] {
      SameTextsTotal(a[1..], b[1..]);
    }
  }

  lemma {:induction false} SameTextsFind(a: seq<Message>, b: seq<Message>, id: nat)
    requires SameTexts(a, b)
    ensures Find(a, id) == Find(b, id)
  {
    if a != [] && a[0].id != id {
      SameTextsFind(a[1..], b[1..], id);
    }
  }

  /** Find is membership, and it is unique in an ascending sequence. */
  lemma FindsAt(ms: seq<Message>, k: nat)
    requires Ascending(ms) && k < |ms|
    ensures Find(ms, ms[k].id) == k
  {
    var j := Find(ms, ms[k].id);
    assert j <= k;
  }

  lemma {:induction false} SelectedIsUnread(ms: seq<Message>)
    requires Ascending(ms)
    ensures forall m :: m in Selected(ms) <==> m in ms && m.status == Unread
    ensures Ascending(Selected(ms))
  {
    if ms != [] {
      SelectedIsUnread(ms[1..]);
      assert forall m | m in ms[1..] :: ms[0].id < m.id;
      assert forall m | m in ms :: m == ms[0] || m in ms[1..];
    }
  }

  /** A queue that only changed statuses keeps budgets, order and conservation. */
  lemma {:induction false} StatusesOnly(w: World, v: World)
    requires Budgets(w.queue) && QueueInv(w)
    requires SameTexts(w.queue.messages, v.queue.messages) && v.queue.bytes == w.queue.bytes
    requires v.texts == w.texts && v.retracted == w.retracted
    ensures Budgets(v.queue) && QueueInv(v)
  {
    SameTextsTotal(w.queue.messages, v.queue.messages);
    forall id: nat ensures Holds(v.queue.messages, id) == Holds(w.queue.messages, id) {
      SameTextsFind(w.queue.messages, v.queue.messages, id);
    }
  }

  // --------------------------------------------------- every move keeps it

  lemma {:induction false} FindAppend(ms: seq<Message>, m: Message, id: nat)
    ensures Find(ms + [m], id) == if Holds(ms, id) then Find(ms, id) else if m.id == id then |ms| else |ms| + 1
  {
    if ms == [] {
      assert ms + [m] == [m];
      assert Find([m][1..], id) == 0;
    } else {
      assert (ms + [m])[1..] == ms[1..] + [m];
      if ms[0].id != id { FindAppend(ms[1..], m, id); }
    }
  }

  /** A record's claim carries over when its message is still found the same. */
  lemma RecordKept(w: World, v: World, r: Record, o: Outcome)
    requires RecordInv(w, r, o) && w.texts <= v.texts
    requires Holds(v.queue.messages, r.id)
    requires v.queue.messages[Find(v.queue.messages, r.id)] == w.queue.messages[Find(w.queue.messages, r.id)]
    ensures RecordInv(v, r, o)
  {
  }

  lemma AppendedBudgets(s: Service, m: Message)
    requires Budgets(s) && |s.messages| < MESSAGE_BUDGET && |m.text| <= BYTE_BUDGET - s.bytes
    ensures Budgets(s.(messages := s.messages + [m], bytes := s.bytes + |m.text|))
  {
    TotalTextConcat(s.messages, [m]);
    assert TotalText([m]) == |m.text| by { assert TotalText([m][1..]) == 0; }
  }

  lemma {:induction false} AppendedQueueInv(w: World, v: World, m: Message)
    requires QueueInv(w) && m.id == |w.texts|
    requires v.queue.messages == w.queue.messages + [m] && v.texts == w.texts + [m.text] && v.retracted == w.retracted
    ensures QueueInv(v)
    ensures forall id: nat :: Holds(w.queue.messages, id) ==>
              Holds(v.queue.messages, id) && v.queue.messages[Find(v.queue.messages, id)] == w.queue.messages[Find(w.queue.messages, id)]
  {
    var ms := w.queue.messages;
    forall id: nat ensures Find(v.queue.messages, id)
        == if Holds(ms, id) then Find(ms, id) else if m.id == id then |ms| else |ms| + 1 {
      FindAppend(ms, m, id);
    }
    assert !Holds(ms, m.id);
  }

  lemma {:induction false} AppendedBatchInv(w: World, v: World, m: Message)
    requires QueueInv(w) && BatchInv(w) && m.id == |w.texts|
    requires v.queue.messages == w.queue.messages + [m] && v.texts == w.texts + [m.text] && v.retracted == w.retracted
    requires v.batches == w.batches
    ensures BatchInv(v)
    ensures forall k, i :: 0 <= k < |w.batches| && 0 <= i < |w.batches[k].records| ==> w.batches[k].records[i].id < m.id
  {
    hide RecordInv, QueueInv;
    AppendedQueueInv(w, v, m);
    forall k, i | 0 <= k < |w.batches| && 0 <= i < |w.batches[k].records|
      ensures RecordInv(v, w.batches[k].records[i], w.batches[k].outcome)
      ensures w.batches[k].records[i].id < m.id
    {
      var r := w.batches[k].records[i];
      assert RecordInv(w, r, w.batches[k].outcome);
      RecordUnfold(w, r, w.batches[k].outcome);
      RecordKept(w, v, r, w.batches[k].outcome);
    }
  }

  lemma EnqueueKeepsInv(w: World, text: bytes)
    requires Inv(w) && Enqueued(w.queue, |w.texts|, text, false).1.Ok?
    ensures Inv(Next(w, EnqueueMove(text, false)))
  {
    hide Valid, InOrder, InBatches, JoinedInv, RecordInv, Budgets, QueueInv, BatchInv, StatusInv;
    var v := Next(w, EnqueueMove(text, false));
    var m := Message(|w.texts|, text, w.queue.activeRun, Unread);
    AppendedBudgets(w.queue, m);
    AppendedQueueInv(w, v, m);
    AppendedBatchInv(w, v, m);
    AppendedStatusInv(w, v, m);
    JoinedSame(w, v);
  }

  lemma RecordUnfold(w: World, r: Record, o: Outcome)
    requires RecordInv(w, r, o)
    ensures r.id < |w.texts| && Holds(w.queue.messages, r.id)
    ensures w.queue.messages[Find(w.queue.messages, r.id)].status == StatusOf(o)
  {
  }

  lemma AppendedStatusInv(w: World, v: World, m: Message)
    requires StatusInv(w) && v.batches == w.batches && v.queue.messages == w.queue.messages + [m] && m.status == Unread
    requires forall k, i :: 0 <= k < |w.batches| && 0 <= i < |w.batches[k].records| ==> w.batches[k].records[i].id < m.id
    ensures StatusInv(v)
  {
    hide InBatches;
  }

  lemma JoinedSame(w: World, v: World)
    requires JoinedInv(w) && v.batches == w.batches
    ensures JoinedInv(v)
  {
  }

  lemma {:induction false} CancelKeepsInv(w: World, id: nat)
    requires Inv(w) && Cancelled(w.queue, id, false).1 == Ok(true)
    ensures Inv(Next(w, CancelMove(id, false)))
  {
    hide Valid, InOrder, InBatches, JoinedInv, RecordInv, Budgets, QueueInv, BatchInv, StatusInv;
    var v := Next(w, CancelMove(id, false));
    var ms := w.queue.messages;
    var k := Find(ms, id);
    RemovedBudgets(w.queue, k);
    RemovedQueueInv(w, v, k);
    RemovedBatchInv(w, v, k);
    RemovedStatusInv(w, v, k);
    JoinedSame(w, v);
  }

  function Removed(ms: seq<Message>, k: nat): seq<Message>
    requires k < |ms|
  {
    ms[..k] + ms[k + 1..]
  }

  lemma RemovedBudgets(s: Service, k: nat)
    requires Budgets(s) && k < |s.messages|
    ensures Budgets(s.(messages := Removed(s.messages, k), bytes := s.bytes - |s.messages[k].text|))
  {
    var ms := s.messages;
    assert ms == ms[..k] + ([ms[k]] + ms[k + 1..]);
    TotalTextConcat(ms[..k], [ms[k]] + ms[k + 1..]);
    TotalTextConcat([ms[k]], ms[k + 1..]);
    TotalTextConcat(ms[..k], ms[k + 1..]);
    assert TotalText([ms[k]]) == |ms[k].text| by { assert TotalText([ms[k]][1..]) == 0; }
  }

  lemma RemovedAt(ms: seq<Message>, k: nat, i: nat)
    requires k < |ms| && i < |ms| - 1
    ensures Removed(ms, k)[i] == ms[if i < k then i else i + 1]
  {
  }

  lemma RemovedAscending(ms: seq<Message>, k: nat)
    requires Ascending(ms) && k < |ms|
    ensures Ascending(Removed(ms, k))
  {
    hide Removed;
    var left := Removed(ms, k);
    assert |left| == |ms| - 1 by { RemovedSize(ms, k); }
    forall i, j | 0 <= i < j < |left| ensures left[i].id < left[j].id {
      RemovedAt(ms, k, i);
      RemovedAt(ms, k, j);
    }
  }

  lemma RemovedSize(ms: seq<Message>, k: nat)
    requires k < |ms|
    ensures |Removed(ms, k)| == |ms| - 1
  {
  }

  lemma RemovedLacks(ms: seq<Message>, k: nat, other: nat)
    requires Ascending(ms) && k < |ms| && (Holds(ms, other) ==> other == ms[k].id)
    ensures !Holds(Removed(ms, k), other)
  {
    hide Removed, Ascending;
    var left := Removed(ms, k);
    RemovedSize(ms, k);
    forall i | 0 <= i < |left| ensures left[i].id != other {
      RemovedAt(ms, k, i);
      FindsAt(ms, if i < k then i else i + 1);
      FindsAt(ms, k);
    }
  }

  lemma RemovedFind(ms: seq<Message>, k: nat, other: nat)
    requires Ascending(ms) && k < |ms|
    ensures Holds(Removed(ms, k), other) <==> Holds(ms, other) && other != ms[k].id
    ensures Holds(Removed(ms, k), other) ==> Removed(ms, k)[Find(Removed(ms, k), other)] == ms[Find(ms, other)]
  {
    hide Removed, Ascending;
    if Holds(ms, other) && other != ms[k].id {
      var j := Find(ms, other);
      var i := if j < k then j else j - 1;
      RemovedSize(ms, k);
      RemovedAt(ms, k, i);
      RemovedAscending(ms, k);
      FindsAt(Removed(ms, k), i);
    } else {
      RemovedLacks(ms, k, other);
    }
  }

  lemma {:induction false} RemovedQueueInv(w: World, v: World, k: nat)
    requires QueueInv(w) && k < |w.queue.messages|
    requires v.queue.messages == Removed(w.queue.messages, k) && v.texts == w.texts
    requires v.retracted == w.retracted + {w.queue.messages[k].id}
    ensures QueueInv(v)
  {
    var ms := w.queue.messages;
    forall id: nat ensures Holds(v.queue.messages, id) <==> Holds(ms, id) && id != ms[k].id {
      RemovedFind(ms, k, id);
    }
    FindsAt(ms, k);
  }

  lemma {:induction false} RemovedBatchInv(w: World, v: World, k: nat)
    requires QueueInv(w) && BatchInv(w) && k < |w.queue.messages| && w.queue.messages[k].status == Unread
    requires v.queue.messages == Removed(w.queue.messages, k) && v.texts == w.texts && v.batches == w.batches
    ensures BatchInv(v)
  {
    hide RecordInv;
    forall l, i | 0 <= l < |w.batches| && 0 <= i < |w.batches[l].records|
      ensures RecordInv(v, w.batches[l].records[i], w.batches[l].outcome)
    {
      var r := w.batches[l].records[i];
      assert RecordInv(w, r, w.batches[l].outcome);
      RecordUnfold(w, r, w.batches[l].outcome);
      FindsAt(w.queue.messages, k);
      RemovedFind(w.queue.messages, k, r.id);
      RecordKept(w, v, r, w.batches[l].outcome);
    }
  }

  lemma RemovedStatusInv(w: World, v: World, k: nat)
    requires StatusInv(w) && k < |w.queue.messages|
    requires v.queue.messages == Removed(w.queue.messages, k) && v.batches == w.batches
    ensures StatusInv(v)
  {
    hide InBatches;
    assert forall m | m in v.queue.messages :: m in w.queue.messages;
  }

  lemma {:induction false} TakeKeepsInv(w: World, run: string)
    requires Inv(w) && w.queue.activeRun == run
    ensures Inv(Next(w, TakeMove(run)))
  {
    hide Valid, InOrder, InBatches, JoinedInv, Budgets;
    var v := Next(w, TakeMove(run));
    var ms, marked := w.queue.messages, v.queue.messages;
    var selected := Selected(ms);
    SelectedIsUnread(ms);
    StatusesOnly(w, v);
    assert marked == Marked(ms);
    if selected == [] {
      assert marked == ms by {
        forall i | 0 <= i < |ms| ensures ms[i].status != Unread { assert ms[i] in ms; }
      }
      assert v.queue == w.queue && v == w;
    } else {
      TakenBatchInv(w, v, run);
      TakenStatusInv(w, v, run);
      TakenInOrder(w, Inputs(selected));
      TakenJoined(w, v, Inputs(selected));
    }
  }

  lemma TakenJoined(w: World, v: World, records: seq<Record>)
    requires JoinedInv(w) && v.batches == w.batches + [Batch(records, InFlight)]
    ensures JoinedInv(v)
  {
  }

  lemma {:induction false} TakenBatchInv(w: World, v: World, run: string)
    requires QueueInv(w) && BatchInv(w) && w.queue.activeRun == run && v == Next(w, TakeMove(run))
    requires Selected(w.queue.messages) != []
    ensures BatchInv(v)
  {
    hide RecordInv;
    forall k, i | 0 <= k < |v.batches| && 0 <= i < |v.batches[k].records|
      ensures RecordInv(v, v.batches[k].records[i], v.batches[k].outcome)
    {
      if k < |w.batches| {
        assert v.batches[k] == w.batches[k];
        assert RecordInv(w, w.batches[k].records[i], w.batches[k].outcome);
        MarkedRecord(w, v, w.batches[k].records[i], w.batches[k].outcome);
      } else {
        NewRecord(w, v, i);
      }
    }
  }

  lemma MarkedRecord(w: World, v: World, r: Record, o: Outcome)
    requires RecordInv(w, r, o) && v.queue.messages == Marked(w.queue.messages) && v.texts == w.texts
    ensures RecordInv(v, r, o)
  {
    SameTextsFind(w.queue.messages, v.queue.messages, r.id);
    RecordKept(w, v, r, o);
  }

  lemma NewRecord(w: World, v: World, i: nat)
    requires QueueInv(w) && v.queue.messages == Marked(w.queue.messages) && v.texts == w.texts
    requires i < |Selected(w.queue.messages)|
    ensures RecordInv(v, Input(Selected(w.queue.messages)[i]), InFlight)
  {
    var ms := w.queue.messages;
    SelectedIsUnread(ms);
    var m := Selected(ms)[i];
    assert m in Selected(ms);
    var at :| 0 <= at < |ms| && ms[at] == m;
    FindsAt(ms, at);
    SameTextsFind(ms, v.queue.messages, m.id);
  }

  lemma {:induction false} TakenStatusInv(w: World, v: World, run: string)
    requires QueueInv(w) && StatusInv(w) && w.queue.activeRun == run && v == Next(w, TakeMove(run))
    requires Selected(w.queue.messages) != []
    ensures StatusInv(v)
  {
    hide QueueInv, StatusInv, InBatches;
    var ms, marked := w.queue.messages, v.queue.messages;
    forall m | m in marked ensures m.status != Unread && InBatches(v.batches, m.id) {
      var at :| 0 <= at < |ms| && marked[at] == m;
      if ms[at].status == Unread {
        SelectedBatched(w, v, at);
      } else {
        assert InBatches(w.batches, m.id) by { OldInBatches(w, at); }
        MoreBatches(w.batches, v.batches, m.id);
      }
    }
    NothingUnread(v);
  }

  lemma OldInBatches(w: World, at: nat)
    requires StatusInv(w) && at < |w.queue.messages| && w.queue.messages[at].status != Unread
    ensures InBatches(w.batches, w.queue.messages[at].id)
  {
    assert w.queue.messages[at] in w.queue.messages;
  }

  lemma NothingUnread(v: World)
    requires forall m :: m in v.queue.messages ==> m.status != Unread && InBatches(v.batches, m.id)
    ensures StatusInv(v)
  {
  }

  lemma MoreBatches(a: seq<Batch>, b: seq<Batch>, id: nat)
    requires InBatches(a, id) && a <= b
    ensures InBatches(b, id)
  {
    var k :| 0 <= k < |a| && id in Ids(a[k].records);
    assert b[k] == a[k];
  }

  lemma SelectedBatched(w: World, v: World, at: nat)
    requires QueueInv(w) && at < |w.queue.messages| && w.queue.messages[at].status == Unread
    requires v.batches == w.batches + [Batch(Inputs(Selected(w.queue.messages)), InFlight)]
    ensures InBatches(v.batches, w.queue.messages[at].id)
  {
    var ms := w.queue.messages;
    SelectedIsUnread(ms);
    assert ms[at] in ms;
    var i :| 0 <= i < |Selected(ms)| && Selected(ms)[i] == ms[at];
    var last := |w.batches|;
    assert v.batches[last].records[i] in v.batches[last].records;
    assert ms[at].id in Ids(v.batches[last].records);
  }

  lemma {:induction false} TakenInOrder(w: World, records: seq<Record>)
    requires QueueInv(w) && InOrder(w.batches) && StatusInv(w)
    requires records == Inputs(Selected(w.queue.messages))
    ensures InOrder(w.batches + [Batch(records, InFlight)])
  {
    hide InBatches;
    var ms := w.queue.messages;
    SelectedIsUnread(ms);
    forall k, i, j | 0 <= k < |w.batches| && 0 <= i < |w.batches[k].records| && 0 <= j < |records|
      ensures w.batches[k].records[i].id < records[j].id
    {
      assert Selected(ms)[j] in Selected(ms);
    }
  }

  lemma {:induction false} FinishKeepsInv(w: World, flight: nat, receipt: seq<Record>, failed: bool)
    requires Inv(w) && flight < |w.batches| && w.batches[flight].outcome.InFlight?
    ensures Inv(Next(w, FinishMove(flight, receipt, failed)))
  {
    hide Valid, InOrder, InBatches, JoinedInv, Budgets, BatchInv, StatusInv, GoodReceipt;
    var v := Next(w, FinishMove(flight, receipt, failed));
    StatusesOnly(w, v);
    FinishedBatchInv(w, flight, receipt, failed);
    FinishedStatusInv(w, flight, receipt, failed);
    FinishedJoined(w, flight, receipt, failed);
    assert InOrder(v.batches) by { SameRecordsInOrder(w.batches, v.batches); }
  }

  lemma SameRecordsInOrder(a: seq<Batch>, b: seq<Batch>)
    requires InOrder(a) && |a| == |b| && forall k :: 0 <= k < |a| ==> a[k].records == b[k].records
    ensures InOrder(b)
  {
  }

  lemma FinishedJoined(w: World, flight: nat, receipt: seq<Record>, failed: bool)
    requires JoinedInv(w) && flight < |w.batches| && w.batches[flight].outcome.InFlight?
    ensures JoinedInv(Next(w, FinishMove(flight, receipt, failed)))
  {
    var v := Next(w, FinishMove(flight, receipt, failed));
    forall k | 0 <= k < |v.batches| && k != flight ensures v.batches[k] == w.batches[k] {}
  }

  lemma {:induction false} FinishedBatchInv(w: World, flight: nat, receipt: seq<Record>, failed: bool)
    requires QueueInv(w) && BatchInv(w) && InOrder(w.batches)
    requires flight < |w.batches| && w.batches[flight].outcome.InFlight?
    ensures BatchInv(Next(w, FinishMove(flight, receipt, failed)))
  {
    hide GoodReceipt;
    var v := Next(w, FinishMove(flight, receipt, failed));
    var ms, resolved := w.queue.messages, v.queue.messages;
    var records := w.batches[flight].records;
    forall id: nat ensures Find(resolved, id) == Find(ms, id) {
      SameTextsFind(ms, resolved, id);
    }
    forall k, i | 0 <= k < |v.batches| && 0 <= i < |v.batches[k].records|
      ensures RecordInv(v, v.batches[k].records[i], v.batches[k].outcome)
    {
      var r := w.batches[k].records[i];
      assert RecordInv(w, r, w.batches[k].outcome);
      assert v.batches[k].records == w.batches[k].records;
      if k == flight {
        assert r in records && r.id in Ids(records);
      } else {
        OtherBatch(w.batches, k, i, flight);
      }
    }
  }

  /** Two batches share no message. */
  lemma OtherBatch(batches: seq<Batch>, k: nat, i: nat, flight: nat)
    requires InOrder(batches) && k < |batches| && flight < |batches| && k != flight && i < |batches[k].records|
    ensures batches[k].records[i].id !in Ids(batches[flight].records)
  {
    forall r | r in batches[flight].records ensures r.id != batches[k].records[i].id {
      var j :| 0 <= j < |batches[flight].records| && batches[flight].records[j] == r;
      assert k < flight ==> batches[k].records[i].id < batches[flight].records[j].id;
      assert flight < k ==> batches[flight].records[j].id < batches[k].records[i].id;
    }
  }

  lemma {:induction false} FinishedStatusInv(w: World, flight: nat, receipt: seq<Record>, failed: bool)
    requires StatusInv(w) && flight < |w.batches| && w.batches[flight].outcome.InFlight?
    ensures StatusInv(Next(w, FinishMove(flight, receipt, failed)))
  {
    hide GoodReceipt;
    var v := Next(w, FinishMove(flight, receipt, failed));
    var ms, resolved := w.queue.messages, v.queue.messages;
    assert forall k | 0 <= k < |v.batches| :: v.batches[k].records == w.batches[k].records;
    forall m | m in resolved
      ensures m.status == Unread ==> m in ms
      ensures m.status != Unread ==> InBatches(v.batches, m.id)
    {
      var at :| 0 <= at < |ms| && resolved[at] == m;
      assert ms[at] in ms;
      if m.id in Ids(w.batches[flight].records) {
        assert m.id in Ids(v.batches[flight].records);
      } else if m.status != Unread {
        var k :| 0 <= k < |w.batches| && m.id in Ids(w.batches[k].records);
        assert m.id in Ids(v.batches[k].records);
      }
    }
  }

  /** Every move, taken in any state that satisfies the invariant, keeps it. */
  lemma {:induction false} MoveKeepsInv(w: World, move: Move)
    requires Inv(w)
    ensures Inv(Next(w, move))
  {
    hide Budgets, QueueInv, BatchInv, InOrder, StatusInv, JoinedInv, Valid;
    var v := Next(w, move);
    match move {
      case EnqueueMove(text, cancelled) =>
        if Enqueued(w.queue, |w.texts|, text, cancelled).1.Ok? { EnqueueKeepsInv(w, text); } else { assert v == w; }
      case CancelMove(id, cancelled) =>
        if Cancelled(w.queue, id, cancelled).1 == Ok(true) { CancelKeepsInv(w, id); } else { assert v == w; }
      case StartMove(run, fits) => ActiveRunOnly(w, v);
      case EndMove(run) => ActiveRunOnly(w, v);
      case TakeMove(run) =>
        if w.queue.activeRun == run { TakeKeepsInv(w, run); } else { assert v == w; }
      case FinishMove(k, receipt, failed) =>
        if k < |w.batches| && w.batches[k].outcome.InFlight? { FinishKeepsInv(w, k, receipt, failed); }
    }
  }

  lemma ActiveRunOnly(w: World, v: World)
    requires Inv(w) && v == w.(queue := w.queue.(activeRun := v.queue.activeRun))
    ensures Inv(v)
  {
    hide InOrder, InBatches, Valid, RecordInv;
    forall r, o | RecordInv(w, r, o) ensures RecordInv(v, r, o) {
      RecordUnfold(w, r, o);
      RecordKept(w, v, r, o);
    }
  }

  lemma {:induction false} AfterKeepsInv(w: World, moves: seq<Move>)
    requires Inv(w)
    ensures Inv(After(w, moves))
    decreases |moves|
  {
    hide Inv, Next;
    if moves != [] {
      MoveKeepsInv(w, moves[0]);
      AfterKeepsInv(Next(w, moves[0]), moves[1..]);
    }
  }

  /** Every reachable state satisfies the invariant. */
  lemma ReachableInv(moves: seq<Move>)
    ensures Inv(After(FRESH, moves))
  {
    AfterKeepsInv(FRESH, moves);
  }

  // -------------------------------------------------------------- theorems

  lemma {:induction false} HistoryGrows(w: World, moves: seq<Move>)
    ensures w.texts <= After(w, moves).texts
    ensures w.retracted <= After(w, moves).retracted
    ensures |w.batches| <= |After(w, moves).batches|
    ensures forall k :: 0 <= k < |w.batches| ==> After(w, moves).batches[k].records == w.batches[k].records
    ensures forall k :: 0 <= k < |w.batches| && !w.batches[k].outcome.InFlight? ==> After(w, moves).batches[k] == w.batches[k]
    decreases |moves|
  {
    if moves != [] {
      hide Enqueued, Cancelled, Taken, Finished, After;
      HistoryGrows(Next(w, moves[0]), moves[1..]);
      assert After(w, moves) == After(Next(w, moves[0]), moves[1..]) by { AfterUnfold(w, moves); }
    }
  }

  lemma AfterUnfold(w: World, moves: seq<Move>)
    requires moves != []
    ensures After(w, moves) == After(Next(w, moves[0]), moves[1..])
  {
  }

  /** A message whose Cancel answered true is in no batch, before or ever after. */
  lemma RetractedNeverAppended(before: seq<Move>, id: nat, later: seq<Move>, k: nat)
    requires Cancelled(After(FRESH, before).queue, id, false).1 == Ok(true)
    ensures var w := After(Next(After(FRESH, before), CancelMove(id, false)), later);
      k < |w.batches| ==> id !in Ids(w.batches[k].records)
  {
    var w0 := After(FRESH, before);
    var w1 := Next(w0, CancelMove(id, false));
    var w := After(w1, later);
    hide Next, After, Cancelled;
    ReachableInv(before);
    MoveKeepsInv(w0, CancelMove(id, false));
    AfterKeepsInv(w1, later);
    assert id in w1.retracted by { CancelRecords(w0, id); }
    HistoryGrows(w1, later);
    assert !Holds(w.queue.messages, id);
    if k < |w.batches| {
      forall r | r in w.batches[k].records ensures r.id != id {
        var i :| 0 <= i < |w.batches[k].records| && w.batches[k].records[i] == r;
        assert RecordInv(w, r, w.batches[k].outcome);
      }
    }
  }

  lemma CancelRecords(w: World, id: nat)
    requires Cancelled(w.queue, id, false).1 == Ok(true)
    ensures id in Next(w, CancelMove(id, false)).retracted
  {
  }
}
