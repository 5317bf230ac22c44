/** The streams an engine may send, said of whole streams: integration/engine/
    contract.go checks one event at a time against a few fields, and accepts
    exactly the streams in which every event is lawful after those before it. */
module EngineTrace {
  import opened EngineContract
  import opened Wrappers

  ghost predicate ToolOpen(h: seq<Event>, id: string) {
    exists i :: OpenSince(h, id, i)
  }

  /** The tool was started at `i` and has not ended since. */
  predicate OpenSince(h: seq<Event>, id: string, i: int) {
    && 0 <= i < |h| && h[i].kind == ToolStart && h[i].id == id
    && forall j :: i < j < |h| ==> h[j].kind != ToolEnd || h[j].id != id
  }

  predicate Fatal(e: Event) {
    e.kind == Error && !e.recoverable
  }

  /** Is `e` in order after the stream `h`, apart from tools a completion leaves open? */
  ghost predicate InOrder(h: seq<Event>, e: Event) {
    && (forall i :: 0 <= i < |h| ==> h[i].kind != Completed)
    && (e.kind != Completed ==> forall i :: 0 <= i < |h| ==> !Fatal(h[i]))
    && |e.text| <= 0x1_0000 && e.inputSize <= 0x4000
    && (e.wait.Some? ==> e.kind == Completed && e.outcome == Waiting)
    && (e.sessionID != "" ==> forall i :: 0 <= i < |h| ==> h[i].sessionID == "" || h[i].sessionID == e.sessionID)
    && match e.kind
       case SessionStarted => e.sessionID != "" && forall i :: 0 <= i < |h| ==> h[i].kind != SessionStarted
       case ExecutionActivity =>
         && e.activity.Some?
         && 1 <= |e.activity.value.id| <= 128 && 1 <= |e.activity.value.name| <= 128
         && e.activity.value.effect in {NoEffect, Read, Write, Execute, Network, Unknown}
       case MessageDelta => e.id != ""
       case Message => e.id != ""
       case ReasoningDelta => e.id != ""
       case ContentBlock => e.id != "" && e.name != ""
       case ToolStart => e.id != "" && e.name != "" && !ToolOpen(h, e.id)
       case ToolEnd => ToolOpen(h, e.id)
       case PermissionRequest => e.id != "" && e.name != ""
       case Error => e.text != ""
       case Completed =>
         && e.outcome in {Succeeded, Failed, Cancelled, Interrupted, Waiting}
         && (e.outcome == Succeeded || e.outcome == Waiting ==> forall i :: 0 <= i < |h| ==> !Fatal(h[i]))
         && (e.outcome == Waiting ==>
               && (exists i :: 0 <= i < |h| && h[i].kind == SessionStarted)
               && e.wait.Some? && e.wait.value.revision > 0 && 1 <= e.wait.value.requests <= 16 && e.wait.value.expiresAt > 0)
       case UnknownKind => false
  }

  /** The law for the next event: a completion, besides, ends every tool first. */
  ghost predicate Lawful(h: seq<Event>, e: Event) {
    InOrder(h, e) && (e.kind == Completed ==> forall id :: !ToolOpen(h, id))
  }

  ghost predicate LawfulStream(events: seq<Event>) {
    forall k :: 0 <= k < |events| ==> Lawful(events[..k], events[k])
  }

  /** The contract after a whole stream. */
  function AcceptAll(c: Contract, events: seq<Event>): Option<Contract> {
    if events == [] then Some(c)
    else
      var before := AcceptAll(c, events[..|events| - 1]);
      if before.None? then None else Accept(before.value, events[|events| - 1])
  }

  /** The contract's fields know of the stream what the law needs. */
  ghost predicate Tracks(c: Contract, h: seq<Event>) {
    && (c.terminal <==> exists i :: 0 <= i < |h| && h[i].kind == Completed)
    && (c.fatal <==> exists i :: 0 <= i < |h| && Fatal(h[i]))
    && (c.started <==> exists i :: 0 <= i < |h| && h[i].kind == SessionStarted)
    && (forall i :: 0 <= i < |h| && h[i].sessionID != "" ==> h[i].sessionID == c.native)
    && (c.native != "" ==> exists i :: 0 <= i < |h| && h[i].sessionID == c.native)
    && (forall id :: id in c.tools <==> ToolOpen(h, id))
  }

  lemma NewTracks()
    ensures Tracks(NEW_CONTRACT, [])
  {
  }

  lemma AcceptIsLaw(c: Contract, h: seq<Event>, e: Event)
    requires Tracks(c, h)
    ensures Accept(c, e).Some? <==> Lawful(h, e)
  {
    hide ToolOpen;
    ScreenIsLaw(c, h, e);
    assert c.tools == {} <==> forall id :: !ToolOpen(h, id);
  }

  lemma ScreenIsLaw(c: Contract, h: seq<Event>, e: Event)
    requires Tracks(c, h)
    ensures Screen(c, e).Some? <==>
      && (forall i :: 0 <= i < |h| ==> h[i].kind != Completed)
      && (e.kind != Completed ==> forall i :: 0 <= i < |h| ==> !Fatal(h[i]))
      && |e.text| <= 0x1_0000 && e.inputSize <= 0x4000
      && (e.wait.Some? ==> e.kind == Completed && e.outcome == Waiting)
      && (e.sessionID != "" ==> forall i :: 0 <= i < |h| ==> h[i].sessionID == "" || h[i].sessionID == e.sessionID)
  {
    hide ToolOpen, Fatal;
  }

  lemma ToolAppend(h: seq<Event>, e: Event, id: string)
    ensures ToolOpen(h + [e], id) <==>
      (e.kind == ToolStart && e.id == id) || (ToolOpen(h, id) && !(e.kind == ToolEnd && e.id == id))
  {
    var n, g := |h|, h + [e];
    assert g[n] == e && forall j :: 0 <= j < n ==> g[j] == h[j];
    if i :| OpenSince(g, id, i) {
      if i < n { assert OpenSince(h, id, i); }
    }
    if e.kind == ToolStart && e.id == id { assert OpenSince(g, id, n); }
    if i :| OpenSince(h, id, i) && !(e.kind == ToolEnd && e.id == id) { assert OpenSince(g, id, i); }
  }

  /** What accepting an event does to the fields. */
  lemma AcceptShape(c: Contract, e: Event)
    requires Accept(c, e).Some?
    ensures var c' := Accept(c, e).value;
      && !c.terminal && (c'.terminal <==> e.kind == Completed)
      && (c'.started <==> c.started || e.kind == SessionStarted)
      && c'.native == (if e.sessionID != "" then e.sessionID else c.native)
      && (e.sessionID != "" && c.native != "" ==> e.sessionID == c.native)
      && c'.tools == (if e.kind == ToolStart then c.tools + {e.id} else if e.kind == ToolEnd then c.tools - {e.id} else c.tools)
      && (e.kind != Completed ==> !c.fatal)
      && c'.fatal == (c.fatal || Fatal(e))
  {
  }

  lemma AcceptTracks(c: Contract, h: seq<Event>, e: Event)
    requires Tracks(c, h) && Accept(c, e).Some?
    ensures Tracks(Accept(c, e).value, h + [e])
  {
    AcceptShape(c, e);
    hide ToolOpen, Fatal, Accept;
    var c', g, n := Accept(c, e).value, h + [e], |h|;
    assert g[n] == e && forall i :: 0 <= i < n ==> g[i] == h[i];
    forall id ensures id in c'.tools <==> ToolOpen(g, id) { ToolAppend(h, e, id); }
    FatalAppend(c, h, e);
    if i :| 0 <= i < n && h[i].kind == SessionStarted { assert g[i].kind == SessionStarted; }
    if i :| 0 <= i < n && h[i].sessionID == c.native { assert g[i].sessionID == c.native; }
  }

  lemma FatalAppend(c: Contract, h: seq<Event>, e: Event)
    requires Tracks(c, h) && Accept(c, e).Some?
    ensures Accept(c, e).value.fatal <==> exists i :: 0 <= i < |h + [e]| && Fatal((h + [e])[i])
  {
    AcceptShape(c, e);
    hide ToolOpen, Fatal, Accept;
    var g, n := h + [e], |h|;
    assert g[n] == e && forall i :: 0 <= i < n ==> g[i] == h[i];
    if i :| 0 <= i < n && Fatal(h[i]) { assert Fatal(g[i]); }
  }

  /** For every stream: the contract accepts all of it exactly when every event
      is lawful after those before it. */
  lemma {:induction false} AcceptsExactly(events: seq<Event>)
    ensures AcceptAll(NEW_CONTRACT, events).Some? <==> LawfulStream(events)
    ensures AcceptAll(NEW_CONTRACT, events).Some? ==> Tracks(AcceptAll(NEW_CONTRACT, events).value, events)
  {
    hide Tracks, Lawful, Accept;
    if events == [] {
      NewTracks();
    } else {
      var n := |events| - 1;
      var h := events[..n];
      AcceptsExactly(h);
      assert h + [events[n]] == events;
      assert forall k :: 0 <= k < n ==> h[..k] == events[..k] && h[k] == events[k];
      if AcceptAll(NEW_CONTRACT, h).Some? {
        var c := AcceptAll(NEW_CONTRACT, h).value;
        AcceptIsLaw(c, h, events[n]);
        if Accept(c, events[n]).Some? { AcceptTracks(c, h, events[n]); }
      } else {
        var k :| 0 <= k < n && !Lawful(h[..k], h[k]);
        assert !Lawful(events[..k], events[k]);
      }
    }
  }
}
