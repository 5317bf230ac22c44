/** The event contract of integration/engine/contract.go and the capability test
    of apps/hub/runtime.go. Text lengths are counted in the units of `string`. */
module EngineContract {
  import opened Wrappers

  datatype Capabilities = Capabilities(
    durableWaits: bool, streaming: bool, resume: bool, cancel: bool, permissionCallback: bool, toolControl: bool)

  datatype Kind =
    | SessionStarted | ExecutionActivity | MessageDelta | Message | ReasoningDelta | ContentBlock
    | ToolStart | ToolEnd | PermissionRequest | Error | Completed | UnknownKind

  datatype Outcome = Succeeded | Failed | Cancelled | Interrupted | Waiting | UnknownOutcome

  datatype Failure = Startup | RateLimit | Authentication | Protocol | Execution | Cancellation | UnknownFailure

  datatype Effect = Read | Write | NoEffect | Execute | Network | Unknown | UndeclaredEffect

  datatype Activity = Activity(id: string, name: string, effect: Effect)

  datatype Wait = Wait(revision: nat, requests: int, expiresAt: int)

  datatype Event = Event(
    kind: Kind, sessionID: string, id: string, name: string, text: string, inputSize: nat,
    effect: Effect, recoverable: bool, failure: Failure, outcome: Outcome,
    activity: Option<Activity>, wait: Option<Wait>)

  const BLANK := Event(UnknownKind, "", "", "", "", 0, UndeclaredEffect, false, UnknownFailure, UnknownOutcome, None, None)

  predicate ValidWait(w: Wait) {
    w.revision != 0 && 1 <= w.requests <= 16 && w.expiresAt > 0
  }

  /** `StreamContract`; `tools` are the ids whose map entry is true. */
  datatype Contract = Contract(started: bool, terminal: bool, fatal: bool, native: string, tools: set<string>)

  const NEW_CONTRACT := Contract(false, false, false, "", {})

  /** The checks of `Accept` before its switch, with the identity it adopts. */
  function Screen(c: Contract, e: Event): Option<Contract> {
    if c.terminal then None
    else if c.fatal && e.kind != Completed then None
    else if |e.text| > 65536 || e.inputSize > 16384 then None
    else if e.wait.Some? && (e.kind != Completed || e.outcome != Waiting) then None
    else if e.sessionID != "" && c.native != "" && e.sessionID != c.native then None
    else Some(if e.sessionID != "" then c.(native := e.sessionID) else c)
  }

  predicate AcceptableActivity(a: Option<Activity>) {
    a.Some? && a.value.id != "" && a.value.name != "" && |a.value.id| <= 128 && |a.value.name| <= 128 &&
    a.value.effect != UndeclaredEffect
  }

  predicate AcceptableCompletion(c: Contract, e: Event) {
    && c.tools == {}
    && e.outcome != UnknownOutcome
    && !(c.fatal && (e.outcome == Succeeded || e.outcome == Waiting))
    && (if e.outcome == Waiting then c.started && e.wait.Some? && ValidWait(e.wait.value) else e.wait.None?)
  }

  /** `StreamContract.Accept` on a clone: `None` is the error. */
  function Accept(before: Contract, e: Event): Option<Contract> {
    var screened := Screen(before, e);
    if screened.None? then None
    else
      var c := screened.value;
      match e.kind
      case ExecutionActivity => if AcceptableActivity(e.activity) then Some(c) else None
      case SessionStarted => if c.started || e.sessionID == "" then None else Some(c.(started := true))
      case MessageDelta => if e.id == "" then None else Some(c)
      case Message => if e.id == "" then None else Some(c)
      case ReasoningDelta => if e.id == "" then None else Some(c)
      case ContentBlock => if e.id == "" || e.name == "" then None else Some(c)
      case ToolStart =>
        if e.id == "" || e.name == "" || e.id in c.tools then None else Some(c.(tools := c.tools + {e.id}))
      case ToolEnd => if e.id !in c.tools then None else Some(c.(tools := c.tools - {e.id}))
      case PermissionRequest => if e.id == "" || e.name == "" then None else Some(c)
      case Error => if e.text == "" then None else Some(c.(fatal := !e.recoverable))
      case Completed => if AcceptableCompletion(c, e) then Some(c.(terminal := true)) else None
      case UnknownKind => None
  }

  /** `supports`: every required name is known and offered. */
  function Supports(c: Capabilities, required: seq<string>): bool {
    forall i :: 0 <= i < |required| ==> Offers(c, required[i])
  }

  predicate Offers(c: Capabilities, name: string) {
    match name
    case "durable_waits" => c.durableWaits
    case "streaming" => c.streaming
    case "resume" => c.resume
    case "cancel" => c.cancel
    case "permission_callback" => c.permissionCallback
    case "tool_control" => c.toolControl
    case _ => false
  }

  method SupportsLoop(c: Capabilities, required: seq<string>) returns (ok: bool)
    ensures ok <==> Supports(c, required)
  {
    for i := 0 to |required|
      invariant forall j :: 0 <= j < i ==> Offers(c, required[j])
    {
      if !Offers(c, required[i]) { return false; }
    }
    return true;
  }
}
