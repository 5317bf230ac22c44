/** The steering queue of harness/pending.go. A message's random identity is
    modelled by its serial number: all that is used of it is that it is fresh. */
module PendingMessages {
  import opened Utf8

  const MESSAGE_BUDGET := 128
  const BYTE_BUDGET := 0x10_0000
  const TEXT_BUDGET := 0x4000

  datatype Status = Unread | Committing | Committed | CommitUnknown

  datatype Message = Message(id: nat, text: bytes, run: string, status: Status)

  datatype Service = Service(activeRun: string, messages: seq<Message>, bytes: int)

  datatype Refusal = ContextDone | BadText | Inactive | Full | InCommit | AppendFailed

  datatype Answer<T> = Ok(value: T) | Err(why: Refusal)

  /** A conversation record handed to, or returned by, the session. */
  datatype Record = Record(conversation: bool, message: bool, id: nat, text: bytes)

  /** What BeforeModel appends to the request: its own notice, then user messages. */
  datatype Entry = Notice | User(id: nat, text: bytes)

  // ------------------------------------------------ specification functions

  predicate AcceptableText(text: bytes) {
    1 <= |text| <= TEXT_BUDGET && Valid(text)
  }

  function Enqueued(s: Service, id: nat, text: bytes, cancelled: bool): (Service, Answer<Message>) {
    if cancelled then (s, Err(ContextDone))
    else if !AcceptableText(text) then (s, Err(BadText))
    else if s.activeRun == "" then (s, Err(Inactive))
    else if |s.messages| >= MESSAGE_BUDGET || |text| > BYTE_BUDGET - s.bytes then (s, Err(Full))
    else
      var m := Message(id, text, s.activeRun, Unread);
      (s.(messages := s.messages + [m], bytes := s.bytes + |text|), Ok(m))
  }

  /** Index of the first message with this identity, or the length. */
  function Find(ms: seq<Message>, id: nat): (k: nat)
    ensures k <= |ms| && (k < |ms| ==> ms[k].id == id) && forall i :: 0 <= i < k ==> ms[i].id != id
  {
    if ms == [] || ms[0].id == id then 0 else 1 + Find(ms[1..], id)
  }

  function Cancelled(s: Service, id: nat, cancelled: bool): (Service, Answer<bool>) {
    var k := Find(s.messages, id);
    if cancelled then (s, Err(ContextDone))
    else if k == |s.messages| then (s, Ok(false))
    else if s.messages[k].status == Committing then (s, Err(InCommit))
    else if s.messages[k].status != Unread then (s, Ok(false))
    else
      (s.(messages := s.messages[..k] + s.messages[k + 1..], bytes := s.bytes - |s.messages[k].text|), Ok(true))
  }

  function Selected(ms: seq<Message>): seq<Message> {
    if ms == [] then []
    else (if ms[0].status == Unread then [ms[0]] else []) + Selected(ms[1..])
  }

  function Marked(ms: seq<Message>): (r: seq<Message>)
    ensures |r| == |ms|
  {
    seq(|ms|, i requires 0 <= i < |ms| => if ms[i].status == Unread then ms[i].(status := Committing) else ms[i])
  }

  function Input(m: Message): Record {
    Record(true, true, m.id, m.text)
  }

  function Inputs(ms: seq<Message>): (r: seq<Record>)
    ensures |r| == |ms| && forall i :: 0 <= i < |ms| ==> r[i] == Input(ms[i])
  {
    seq(|ms|, i requires 0 <= i < |ms| => Input(ms[i]))
  }

  /** The first locked part of BeforeModel: what is taken for the append. */
  function Taken(s: Service, run: string): (Service, Answer<seq<Record>>) {
    if s.activeRun != run then (s, Err(Inactive))
    else (s.(messages := Marked(s.messages)), Ok(Inputs(Selected(s.messages))))
  }

  /** The receipt checks of lines 178-188. */
  predicate GoodReceipt(batch: seq<Record>, receipt: seq<Record>) {
    |receipt| == |batch| &&
    forall i :: 0 <= i < |batch| ==> receipt[i].conversation && receipt[i].message && receipt[i].id == batch[i].id
  }

  function Resolve(ms: seq<Message>, ids: set<nat>, ok: bool): (r: seq<Message>)
    ensures |r| == |ms|
  {
    seq(|ms|, i requires 0 <= i < |ms| =>
      if ms[i].id in ids then ms[i].(status := if ok then Committed else CommitUnknown) else ms[i])
  }

  function Ids(batch: seq<Record>): set<nat> {
    set r | r in batch :: r.id
  }

  function Entries(receipt: seq<Record>): (r: seq<Entry>)
    ensures |r| == |receipt| && forall i :: 0 <= i < |r| ==> r[i] == User(receipt[i].id, receipt[i].text)
  {
    seq(|receipt|, i requires 0 <= i < |receipt| => User(receipt[i].id, receipt[i].text))
  }

  /** The second locked part: statuses, and what joins the request. */
  function Finished(s: Service, batch: seq<Record>, receipt: seq<Record>, failed: bool): (Service, Answer<seq<Entry>>) {
    var ok := !failed && GoodReceipt(batch, receipt);
    (s.(messages := Resolve(s.messages, Ids(batch), ok)), if ok then Ok([Notice] + Entries(receipt)) else Err(AppendFailed))
  }

  function RunStarted(s: Service, run: string, fits: bool): (Service, bool) {
    if fits && run != "" && s.activeRun == "" then (s.(activeRun := run), true) else (s, false)
  }

  function RunEnded(s: Service, run: string): Service {
    if s.activeRun == run then s.(activeRun := "") else s
  }

  // ----------------------------------------------------------- the Go object

  class PendingService {
    var activeRun: string
    var messages: seq<Message>
    var size: int

    function State(): Service
      reads this
    {
      Service(activeRun, messages, size)
    }

    constructor ()
      ensures State() == Service("", [], 0)
    {
      activeRun, messages, size := "", [], 0;
    }

    method Enqueue(id: nat, text: bytes, cancelled: bool) returns (answer: Answer<Message>)
      modifies this
      ensures (State(), answer) == Enqueued(old(State()), id, text, cancelled)
    {
      if cancelled { return Err(ContextDone); }
      if text == [] || |text| > TEXT_BUDGET || !Valid(text) { return Err(BadText); }
      if activeRun == "" { return Err(Inactive); }
      if |messages| >= MESSAGE_BUDGET || |text| > BYTE_BUDGET - size { return Err(Full); }
      var message := Message(id, text, activeRun, Unread);
      messages, size := messages + [message], size + |text|;
      return Ok(message);
    }

    method Cancel(id: nat, cancelled: bool) returns (answer: Answer<bool>)
      modifies this
      ensures (State(), answer) == Cancelled(old(State()), id, cancelled)
    {
      if cancelled { return Err(ContextDone); }
      for index := 0 to |messages|
        invariant State() == old(State())
        invariant forall i :: 0 <= i < index ==> messages[i].id != id
      {
        if messages[index].id != id { continue; }
        assert Find(messages, id) == index;
        if messages[index].status == Committing { return Err(InCommit); }
        if messages[index].status != Unread { return Ok(false); }
        size := size - |messages[index].text|;
        messages := messages[..index] + messages[index + 1..];
        return Ok(true);
      }
      return Ok(false);
    }

    method Snapshot(unreadOnly: bool) returns (r: seq<Message>)
      ensures r == if unreadOnly then Selected(messages) else messages
    {
      r := [];
      for index := 0 to |messages|
        invariant r == if unreadOnly then Selected(messages[..index]) else messages[..index]
      {
        SelectedAppend(messages[..index], messages[index]);
        assert messages[..index + 1] == messages[..index] + [messages[index]];
        if unreadOnly && messages[index].status != Unread { continue; }
        r := r + [messages[index]];
      }
      assert messages[..|messages|] == messages;
    }

    /** `fits`: the context is live and the runtime's session is this one. */
    method OnRunStart(run: string, fits: bool) returns (ok: bool)
      modifies this
      ensures (State(), ok) == RunStarted(old(State()), run, fits)
    {
      if !fits || run == "" { return false; }
      if activeRun != "" { return false; }
      activeRun := run;
      return true;
    }

    method OnRunEnd(run: string)
      modifies this
      ensures State() == RunEnded(old(State()), run)
    {
      if activeRun == run { activeRun := ""; }
    }

    method TakeBatch(run: string) returns (answer: Answer<seq<Record>>)
      modifies this
      ensures (State(), answer) == Taken(old(State()), run)
    {
      if activeRun != run { return Err(Inactive); }
      var batch: seq<Record> := [];
      ghost var before := messages;
      for index := 0 to |messages|
        invariant |messages| == |before| && size == old(size) && activeRun == old(activeRun)
        invariant forall i :: 0 <= i < index ==> messages[i] == Marked(before)[i]
        invariant forall i :: index <= i < |messages| ==> messages[i] == before[i]
        invariant batch == Inputs(Selected(before[..index]))
      {
        SelectedAppend(before[..index], before[index]);
        assert before[..index + 1] == before[..index] + [before[index]];
        if messages[index].status != Unread { continue; }
        batch := batch + [Input(messages[index])];
        messages := messages[index := messages[index].(status := Committing)];
      }
      assert before[..|before|] == before;
      assert messages == Marked(before);
      return Ok(batch);
    }

    method FinishBatch(batch: seq<Record>, receipt: seq<Record>, failed: bool) returns (answer: Answer<seq<Entry>>)
      modifies this
      ensures (State(), answer) == Finished(old(State()), batch, receipt, failed)
    {
      var ok := !failed;
      if ok {
        if |receipt| != |batch| {
          ok := false;
        } else {
          for index := 0 to |receipt|
            invariant ok <==> forall i :: 0 <= i < index ==>
                        receipt[i].conversation && receipt[i].message && receipt[i].id == batch[i].id
          {
            if !receipt[index].conversation || !receipt[index].message || receipt[index].id != batch[index].id {
              ok := false;
            }
          }
        }
      }
      ghost var before := messages;
      for index := 0 to |messages|
        invariant |messages| == |before| && size == old(size) && activeRun == old(activeRun)
        invariant forall i :: 0 <= i < index ==> messages[i] == Resolve(before, Ids(batch), ok)[i]
        invariant forall i :: index <= i < |messages| ==> messages[i] == before[i]
      {
        if messages[index].id !in Ids(batch) { continue; }
        messages := messages[index := messages[index].(status := if ok then Committed else CommitUnknown)];
      }
      assert messages == Resolve(before, Ids(batch), ok);
      if !ok { return Err(AppendFailed); }
      var joined := [Notice];
      for index := 0 to |receipt|
        invariant joined == [Notice] + Entries(receipt[..index])
      {
        assert receipt[..index + 1] == receipt[..index] + [receipt[index]];
        joined := joined + [User(receipt[index].id, receipt[index].text)];
      }
      assert receipt[..|receipt|] == receipt;
      return Ok(joined);
    }
  }

  lemma {:induction false} SelectedAppend(ms: seq<Message>, m: Message)
    ensures Selected(ms + [m]) == Selected(ms) + if m.status == Unread then [m] else []
  {
    if ms == [] {
      assert ms + [m] == [m];
    } else {
      var first := if ms[0].status == Unread then [ms[0]] else [];
      var last := if m.status == Unread then [m] else [];
      assert (ms + [m])[1..] == ms[1..] + [m];
      SelectedAppend(ms[1..], m);
      assert Selected(ms + [m]) == first + (Selected(ms[1..]) + last);
    }
  }
}
