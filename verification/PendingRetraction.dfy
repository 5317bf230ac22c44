/** What harness/pending.go answers its callers, said of what was accepted, what
    was retracted and what was given to the session, in every reachable state. */
module PendingRetraction {
  import opened Utf8
  import opened PendingMessages
  import opened PendingHistory

  /** The message is part of a batch, with this outcome. */
  ghost predicate Batched(w: World, id: nat, k: nat) {
    k < |w.batches| && exists r :: r in w.batches[k].records && r.id == id
  }

  ghost predicate InSomeBatch(w: World, id: nat) {
    exists k: nat :: Batched(w, id, k)
  }

  ghost predicate InFlightNow(w: World, id: nat) {
    exists k: nat :: Batched(w, id, k) && w.batches[k].outcome.InFlight?
  }

  /** Accepted, not retracted and in no batch so far. */
  ghost predicate Open(w: World, id: nat) {
    id < |w.texts| && id !in w.retracted && !InSomeBatch(w, id)
  }

  lemma BatchedRecord(w: World, id: nat, k: nat)
    requires Inv(w) && Batched(w, id, k)
    ensures Holds(w.queue.messages, id)
    ensures w.queue.messages[Find(w.queue.messages, id)].status == StatusOf(w.batches[k].outcome)
  {
    hide Budgets, QueueInv, InOrder, StatusInv, JoinedInv;
    var r :| r in w.batches[k].records && r.id == id;
    var i :| 0 <= i < |w.batches[k].records| && w.batches[k].records[i] == r;
    assert RecordInv(w, w.batches[k].records[i], w.batches[k].outcome);
  }

  lemma HeldStatus(w: World, id: nat)
    requires Inv(w) && Holds(w.queue.messages, id)
    ensures var status := w.queue.messages[Find(w.queue.messages, id)].status;
      && (status == Unread <==> !InSomeBatch(w, id))
      && (status == Committing <==> InFlightNow(w, id))
  {
    hide Budgets, QueueInv, BatchInv, InOrder, JoinedInv;
    var m := w.queue.messages[Find(w.queue.messages, id)];
    assert m in w.queue.messages;
    if k: nat :| Batched(w, id, k) && w.batches[k].outcome.InFlight? { BatchedRecord(w, id, k); }
    if k: nat :| Batched(w, id, k) { BatchedRecord(w, id, k); }
    if m.status != Unread {
      var k :| 0 <= k < |w.batches| && id in Ids(w.batches[k].records);
      var r :| r in w.batches[k].records && r.id == id;
      assert Batched(w, id, k);
      BatchedRecord(w, id, k);
    }
  }

  lemma HeldExactly(w: World, id: nat)
    requires Inv(w)
    ensures Holds(w.queue.messages, id) <==> id < |w.texts| && id !in w.retracted
  {
    hide Budgets, BatchInv, InOrder, JoinedInv, StatusInv;
    if Holds(w.queue.messages, id) {
      var k := Find(w.queue.messages, id);
      assert w.queue.messages[k].id == id;
    }
  }

  /** With a live context, Cancel says yes exactly to a message that was accepted,
      not retracted and given to no session append; "being committed" exactly
      while it is in an append in flight; and no to everything else. */
  lemma CancelAnswers(moves: seq<Move>, id: nat)
    ensures var w := After(FRESH, moves);
      var answer := Cancelled(w.queue, id, false).1;
      && (answer == Ok(true) <==> Open(w, id))
      && (answer == Err(InCommit) <==> InFlightNow(w, id))
      && (answer == Ok(false) <==> !Open(w, id) && !InFlightNow(w, id))
  {
    hide After, Inv, Open, InSomeBatch, InFlightNow;
    ReachableInv(moves);
    CancelAnswersIn(After(FRESH, moves), id);
  }

  lemma CancelAnswersIn(w: World, id: nat)
    requires Inv(w)
    ensures var answer := Cancelled(w.queue, id, false).1;
      && (answer == Ok(true) <==> Open(w, id))
      && (answer == Err(InCommit) <==> InFlightNow(w, id))
      && (answer == Ok(false) <==> !Open(w, id) && !InFlightNow(w, id))
  {
    hide Inv, InSomeBatch, InFlightNow, Batched;
    HeldExactly(w, id);
    if Holds(w.queue.messages, id) {
      HeldStatus(w, id);
    } else {
      assert !InFlightNow(w, id) by { NotHeldNotBatched(w, id); }
    }
  }

  lemma NotHeldNotBatched(w: World, id: nat)
    requires Inv(w) && !Holds(w.queue.messages, id)
    ensures !InFlightNow(w, id)
  {
    hide Inv;
    if k: nat :| Batched(w, id, k) && w.batches[k].outcome.InFlight? { BatchedRecord(w, id, k); }
  }

  /** After a yes the message is gone and the others are as they were, in their
      order; any other answer, and any call whose context has ended, changes nothing. */
  lemma CancelChanges(moves: seq<Move>, id: nat, cancelled: bool)
    ensures var w := After(FRESH, moves);
      var (after, answer) := Cancelled(w.queue, id, cancelled);
      && (answer == Err(ContextDone) <==> cancelled)
      && (answer != Ok(true) ==> after == w.queue)
      && (answer == Ok(true) ==>
            && after.activeRun == w.queue.activeRun
            && exists k :: 0 <= k < |w.queue.messages| && w.queue.messages[k].id == id
                 && after.messages == w.queue.messages[..k] + w.queue.messages[k + 1..]
                 && after.bytes == w.queue.bytes - |w.queue.messages[k].text|
                 && forall m :: m in after.messages ==> m.id != id)
  {
    hide After;
    ReachableInv(moves);
    var w := After(FRESH, moves);
    if Cancelled(w.queue, id, cancelled).1 == Ok(true) {
      var k := Find(w.queue.messages, id);
      OthersDiffer(w.queue.messages, k);
    }
  }

  lemma OthersDiffer(ms: seq<Message>, k: nat)
    requires Ascending(ms) && k < |ms|
    ensures forall m :: m in ms[..k] + ms[k + 1..] ==> m.id != ms[k].id
  {
  }

  /** A message is accepted exactly with a live context, 1 to 16384 octets of
      UTF-8, a run, fewer than 128 messages held and room for it in 1 MiB; it
      then joins the end of the queue, unread, under the run. */
  lemma EnqueueAnswers(moves: seq<Move>, text: bytes, cancelled: bool)
    ensures var w := After(FRESH, moves);
      var (after, answer) := Enqueued(w.queue, |w.texts|, text, cancelled);
      && (answer.Ok? <==>
            && !cancelled && 1 <= |text| <= 16384 && Valid(text) && w.queue.activeRun != ""
            && |w.queue.messages| < 128 && TotalText(w.queue.messages) + |text| <= 1048576)
      && (answer.Ok? ==>
            && answer.value == Message(|w.texts|, text, w.queue.activeRun, Unread)
            && after.messages == w.queue.messages + [answer.value])
      && (answer.Err? ==> after == w.queue)
  {
    hide After, Valid;
    ReachableInv(moves);
  }

  /** The run of the queue is the one that started, until it ends. */
  lemma RunIsBound(s: Service, run: string, fits: bool, ended: string)
    ensures RunStarted(s, run, fits).1 <==> fits && run != "" && s.activeRun == ""
    ensures RunStarted(s, run, fits).0.activeRun == if fits && run != "" && s.activeRun == "" then run else s.activeRun
    ensures RunEnded(s, ended).activeRun == if s.activeRun == ended then "" else s.activeRun
  {
  }

  /** A model boundary of the active run takes exactly the messages accepted, not
      retracted and in no batch yet, each with its text, in the order they came;
      another run takes none. */
  lemma TakesWhatIsOpen(moves: seq<Move>, run: string)
    ensures var w := After(FRESH, moves);
      var (after, answer) := Taken(w.queue, run);
      && (answer.Ok? <==> w.queue.activeRun == run)
      && (answer.Err? ==> after == w.queue && answer.why == Inactive)
      && (answer.Ok? ==>
            && (forall id: nat :: Open(w, id) <==> exists r :: r in answer.value && r.id == id)
            && (forall r :: r in answer.value ==> r.conversation && r.message && r.id < |w.texts| && r.text == w.texts[r.id])
            && (forall i, j :: 0 <= i < j < |answer.value| ==> answer.value[i].id < answer.value[j].id))
  {
    hide After, Inv, Open;
    ReachableInv(moves);
    var w := After(FRESH, moves);
    if w.queue.activeRun == run { TakenRecords(w); }
  }

  lemma TakenRecords(w: World)
    requires Inv(w)
    ensures var batch := Inputs(Selected(w.queue.messages));
      && (forall id: nat :: Open(w, id) <==> exists r :: r in batch && r.id == id)
      && (forall r :: r in batch ==> r.conversation && r.message && r.id < |w.texts| && r.text == w.texts[r.id])
      && (forall i, j :: 0 <= i < j < |batch| ==> batch[i].id < batch[j].id)
  {
    hide Budgets, BatchInv, InOrder, StatusInv, JoinedInv, Open;
    var ms := w.queue.messages;
    var batch := Inputs(Selected(ms));
    SelectedIsUnread(ms);
    forall r | r in batch ensures r.conversation && r.message && r.id < |w.texts| && r.text == w.texts[r.id] && Open(w, r.id) {
      var i :| 0 <= i < |batch| && batch[i] == r;
      assert Selected(ms)[i] in Selected(ms);
      OpenIsUnread(w, Selected(ms)[i]);
    }
    forall id: nat | Open(w, id) ensures exists r :: r in batch && r.id == id {
      UnreadIsOpen(w, id);
      var m := ms[Find(ms, id)];
      var i :| 0 <= i < |Selected(ms)| && Selected(ms)[i] == m;
      assert batch[i] in batch && batch[i].id == id;
    }
  }

  lemma OpenIsUnread(w: World, m: Message)
    requires Inv(w) && m in w.queue.messages && m.status == Unread
    ensures Open(w, m.id) && m.id < |w.texts| && m.text == w.texts[m.id]
  {
    hide Budgets, BatchInv, InOrder, StatusInv, JoinedInv;
    var k :| 0 <= k < |w.queue.messages| && w.queue.messages[k] == m;
    FindsAt(w.queue.messages, k);
    HeldStatus(w, m.id);
    HeldExactly(w, m.id);
  }

  lemma UnreadIsOpen(w: World, id: nat)
    requires Inv(w) && Open(w, id)
    ensures Holds(w.queue.messages, id) && w.queue.messages[Find(w.queue.messages, id)].status == Unread
  {
    hide Inv, InSomeBatch;
    HeldExactly(w, id);
    HeldStatus(w, id);
  }
}
