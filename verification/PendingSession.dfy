/** What joins a request, for every answer of the session. harness/pending.go
    compares the kinds, number and identities of what the session returns, not
    the texts, and the durable session returns redacted copies:
    platform/storage/session/records.go:57-62 and :152, with
    platform/storage/redaction/redaction.go:162-173 and :223-245. */
module PendingSession {
  import opened Splitting
  import opened Utf8
  import opened PendingMessages
  import opened PendingHistory
  import opened Wrappers

  predicate Flying(w: World, flight: nat) {
    flight < |w.batches| && w.batches[flight].outcome.InFlight?
  }

  /** What ought to join: the notice, then each message of the batch as it was enqueued. */
  function Intended(w: World, flight: nat): seq<Entry>
    requires Flying(w, flight)
    requires forall r :: r in w.batches[flight].records ==> r.id < |w.texts|
  {
    var records := w.batches[flight].records;
    [Notice] + seq(|records|, i requires 0 <= i < |records| =>
      assert records[i] in records;
      User(records[i].id, w.texts[records[i].id]))
  }

  predicate SameTexts(records: seq<Record>, receipt: seq<Record>)
    requires |records| == |receipt|
  {
    forall i :: 0 <= i < |records| ==> receipt[i].text == records[i].text
  }

  lemma BatchRecords(moves: seq<Move>, flight: nat)
    requires Flying(After(FRESH, moves), flight)
    ensures var w := After(FRESH, moves); var records := w.batches[flight].records;
      && (forall r :: r in records ==> r.conversation && r.message && r.id < |w.texts| && r.text == w.texts[r.id])
      && (forall i, j :: 0 <= i < j < |records| ==> records[i].id < records[j].id)
      && Intended(w, flight) == [Notice] + Entries(records)
  {
    var w := After(FRESH, moves);
    ReachableInv(moves);
    hide After;
    var records := w.batches[flight].records;
    forall r | r in records ensures r.conversation && r.message && r.id < |w.texts| && r.text == w.texts[r.id] {
      var i :| 0 <= i < |records| && records[i] == r;
      assert RecordInv(w, w.batches[flight].records[i], InFlight);
    }
    assert forall i :: 0 <= i < |records| ==> records[i] in records;
  }

  /** For every receipt and error: something joins exactly when the append
      succeeded and the receipt has the kinds, number and identities of the
      batch, and then it is the notice and the records returned. It is the batch
      as enqueued exactly when, besides, the session returned every text unchanged. */
  lemma JoinsExactly(moves: seq<Move>, flight: nat, receipt: seq<Record>, failed: bool)
    requires Flying(After(FRESH, moves), flight)
    ensures var w := After(FRESH, moves);
      var records := w.batches[flight].records;
      var outcome := Next(w, FinishMove(flight, receipt, failed)).batches[flight].outcome;
      && (forall r :: r in records ==> r.id < |w.texts|)
      && (outcome.Joined? <==>
            && !failed && |receipt| == |records|
            && forall i :: 0 <= i < |records| ==> receipt[i].conversation && receipt[i].message && receipt[i].id == records[i].id)
      && (outcome.Joined? ==> outcome.receipt == receipt && outcome.entries == [Notice] + Entries(receipt))
      && (outcome == Joined(receipt, Intended(w, flight)) <==>
            !failed && GoodReceipt(records, receipt) && SameTexts(records, receipt))
  {
    hide After;
    BatchRecords(moves, flight);
    var records := After(FRESH, moves).batches[flight].records;
    if |records| == |receipt| && forall i :: 0 <= i < |records| ==> receipt[i].id == records[i].id {
      EntriesSame(records, receipt);
    }
  }

  lemma EntriesSame(records: seq<Record>, receipt: seq<Record>)
    requires |records| == |receipt| && forall i :: 0 <= i < |records| ==> receipt[i].id == records[i].id
    ensures [Notice] + Entries(receipt) == [Notice] + Entries(records) <==> SameTexts(records, receipt)
  {
    var a, b := [Notice] + Entries(receipt), [Notice] + Entries(records);
    if a == b {
      forall i | 0 <= i < |records| ensures receipt[i].text == records[i].text {
        assert a[1 + i] == b[1 + i];
      }
    }
  }

  /** The answer of a session that keeps everything but the texts, each of which
      comes back as `returned` says. */
  function Answered(records: seq<Record>, returned: bytes -> bytes): (r: seq<Record>)
    ensures |r| == |records| && forall i :: 0 <= i < |r| ==> r[i] == records[i].(text := returned(records[i].text))
  {
    seq(|records|, i requires 0 <= i < |records| => records[i].(text := returned(records[i].text)))
  }

  /** The messages as enqueued, in enqueue order, are exactly what joins precisely
      when the session returns each of their texts unchanged; otherwise something
      joins all the same, and it is what the session returned. */
  lemma JoinsTheBatch(moves: seq<Move>, flight: nat, returned: bytes -> bytes)
    requires Flying(After(FRESH, moves), flight)
    ensures var w := After(FRESH, moves);
      var records := w.batches[flight].records;
      var receipt := Answered(records, returned);
      var outcome := Next(w, FinishMove(flight, receipt, false)).batches[flight].outcome;
      && (forall r :: r in records ==> r.id < |w.texts|)
      && (forall i, j :: 0 <= i < j < |records| ==> records[i].id < records[j].id)
      && outcome == Joined(receipt, [Notice] + Entries(receipt))
      && (outcome.entries == Intended(w, flight) <==>
            forall r :: r in records ==> returned(w.texts[r.id]) == w.texts[r.id])
  {
    hide After;
    BatchRecords(moves, flight);
    var records := After(FRESH, moves).batches[flight].records;
    var receipt := Answered(records, returned);
    assert forall i :: 0 <= i < |records| ==> records[i] in records;
    assert GoodReceipt(records, receipt);
    EntriesSame(records, receipt);
  }

  // ---------------------------------------------------- the durable session

  function Ascii(s: string): (b: bytes)
    ensures |b| == |s| && forall i :: 0 <= i < |s| ==> b[i] == s[i] as int % 0x80
  {
    seq(|s|, i requires 0 <= i < |s| => s[i] as int % 0x80)
  }

  const MARKERS: seq<string> := [
    "authorization: bearer ", "authorization=bearer ", "api_key=", "apikey=", "access_token=",
    "refresh_token=", "client_secret=", "password=", "cookie:", "set-cookie:"]

  const REDACTED := Ascii("[REDACTED]")

  /** ASCII letters in lower case, other octets as they are. */
  function Folded(s: bytes): (r: bytes)
    ensures |r| == |s| && forall i :: 0 <= i < |s| ==> r[i] == if 0x41 <= s[i] <= 0x5A then s[i] + 0x20 else s[i]
  {
    seq(|s|, i requires 0 <= i < |s| => if 0x41 <= s[i] <= 0x5A then s[i] + 0x20 else s[i])
  }

  /** The parts of the redaction that parse JSON: `structured` is the sanitised
      form of a text that is one JSON value, `quoted` finds a secret key in quotes. */
  datatype Redaction = Redaction(structured: bytes -> Option<bytes>, quoted: bytes -> bool)

  predicate Suspect(r: Redaction, text: bytes) {
    (exists i :: 0 <= i < |MARKERS| && Contains(Folded(text), Ascii(MARKERS[i]))) || r.quoted(text)
  }

  function Kept(r: Redaction, text: bytes): bytes {
    match r.structured(text)
    case Some(clean) => clean
    case None => if Suspect(r, text) then REDACTED else text
  }

  /** What a caller can check of a text before enqueuing it. */
  predicate Clean(r: Redaction, text: bytes) {
    match r.structured(text)
    case Some(clean) => clean == text
    case None => !Suspect(r, text) || text == REDACTED
  }

  /** With the repository's own session: what joins is the batch as enqueued
      exactly when no text of it is JSON that redaction changes and no other
      text of it carries a credential marker. */
  lemma DurableSessionJoins(moves: seq<Move>, flight: nat, r: Redaction)
    requires Flying(After(FRESH, moves), flight)
    ensures var w := After(FRESH, moves);
      var records := w.batches[flight].records;
      var receipt := Answered(records, text => Kept(r, text));
      var outcome := Next(w, FinishMove(flight, receipt, false)).batches[flight].outcome;
      && outcome.Joined?
      && (forall m :: m in records ==> m.id < |w.texts|)
      && (outcome.entries == Intended(w, flight) <==> forall m :: m in records ==> Clean(r, w.texts[m.id]))
  {
    hide After, Suspect;
    var kept := text => Kept(r, text);
    JoinsTheBatch(moves, flight, kept);
    var w := After(FRESH, moves);
    forall m | m in w.batches[flight].records ensures kept(w.texts[m.id]) == w.texts[m.id] <==> Clean(r, w.texts[m.id]) {}
  }

  lemma {:induction false} AsciiValid(s: bytes)
    requires forall i :: 0 <= i < |s| ==> s[i] < 0x80
    ensures Valid(s)
  {
    if s != [] { AsciiValid(s[1..]); }
  }

  const PASSWORD := Ascii("password=x")

  const PASSWORD_MOVES := [StartMove("run", true), EnqueueMove(PASSWORD, false), TakeMove("run")]

  lemma PasswordMarked(r: Redaction)
    requires r.structured(PASSWORD).None?
    ensures Kept(r, PASSWORD) == REDACTED != PASSWORD
  {
    assert MARKERS[7] == "password=";
    assert Ascii(MARKERS[7]) <= Folded(PASSWORD);
    assert Contains(Folded(PASSWORD), Ascii(MARKERS[7]));
    assert REDACTED[0] != PASSWORD[0];
  }

  lemma PasswordFlying()
    ensures After(FRESH, PASSWORD_MOVES)
         == World(Service("run", [Message(0, PASSWORD, "run", Committing)], |PASSWORD|), [PASSWORD], {},
                  [Batch([Record(true, true, 0, PASSWORD)], InFlight)])
  {
    hide Valid;
    AsciiValid(PASSWORD);
    var moves := PASSWORD_MOVES;
    var w1 := World(Service("run", [], 0), [], {}, []);
    var m := Message(0, PASSWORD, "run", Unread);
    var w2 := World(Service("run", [m], |PASSWORD|), [PASSWORD], {}, []);
    assert Next(FRESH, moves[0]) == w1;
    assert [] + [m] == [m] && [] + [PASSWORD] == [PASSWORD];
    assert Next(w1, moves[1]) == w2;
    SelectedOne(w2.queue.messages);
    assert Inputs([m]) == [Input(m)] && Marked([m]) == [m.(status := Committing)];
    hide Next;
    AfterUnfold(FRESH, moves);
    AfterUnfold(w1, moves[1..]);
    AfterUnfold(w2, moves[1..][1..]);
  }

  lemma SelectedOne(ms: seq<Message>)
    requires |ms| == 1 && ms[0].status == Unread
    ensures Selected(ms) == ms
  {
    assert Selected(ms[1..]) == [];
  }

  /** A reachable failure: the steering text "password=x" is accepted and
      committed, and "[REDACTED]" joins the request in its place. */
  lemma RedactedTextJoins(r: Redaction)
    requires r.structured(PASSWORD).None?
    ensures var w := After(FRESH, PASSWORD_MOVES);
      && Flying(w, 0) && w.texts == [PASSWORD] && |w.batches[0].records| == 1 && w.batches[0].records[0].id == 0
      && var receipt := Answered(w.batches[0].records, text => Kept(r, text));
      var outcome := Next(w, FinishMove(0, receipt, false)).batches[0].outcome;
      && outcome == Joined(receipt, [Notice, User(0, REDACTED)])
      && Intended(w, 0) == [Notice, User(0, PASSWORD)] != outcome.entries
  {
    hide After, Kept, Valid;
    PasswordFlying();
    PasswordMarked(r);
    JoinsTheBatch(PASSWORD_MOVES, 0, text => Kept(r, text));
    var w := After(FRESH, PASSWORD_MOVES);
    var receipt := Answered(w.batches[0].records, text => Kept(r, text));
    assert receipt == [Record(true, true, 0, REDACTED)];
    assert [Notice] + Entries(receipt) == [Notice, User(0, REDACTED)];
  }
}
