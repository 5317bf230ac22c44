/** Admission and drain of gateway handlers, apps/gateway/server.go:100-137. */
module GatewayDrain {

  const HANDLER_LIMIT := 8

  /** `channels`: one `idle` channel per busy period, the last being the current
      one; each with how often it has been closed. Closing one twice panics. */
  datatype Gate = Gate(closed: bool, active: int, channels: seq<nat>)

  function Entered(g: Gate): (Gate, bool) {
    if g.closed || g.active >= HANDLER_LIMIT then (g, false)
    else (Gate(g.closed, g.active + 1, if g.active == 0 then g.channels + [0] else g.channels), true)
  }

  function Left(g: Gate): Gate {
    var n := |g.channels|;
    Gate(g.closed, g.active - 1, if g.active == 1 && n > 0 then g.channels[n - 1 := g.channels[n - 1] + 1] else g.channels)
  }

  /** The locked part of Close, and the channel it will wait on, if any. */
  function BegunClose(g: Gate): (Gate, int) {
    (g.(closed := true), if g.active > 0 then |g.channels| - 1 else -1)
  }

  class Server {
    var closed: bool
    var active: int
    var channels: seq<nat>
    var cancelled: bool

    function State(): Gate
      reads this
    {
      Gate(closed, active, channels)
    }

    constructor ()
      ensures State() == Gate(false, 0, []) && !cancelled
    {
      closed, active, channels, cancelled := false, 0, [], false;
    }

    method Enter() returns (ok: bool)
      modifies this`active, this`channels
      ensures (State(), ok) == Entered(old(State()))
    {
      if closed || active >= 8 { return false; }
      if active == 0 { channels := channels + [0]; }
      active := active + 1;
      return true;
    }

    /** The function Enter returns, which a handler calls once. */
    method Leave()
      requires active == 1 ==> channels != []
      modifies this`active, this`channels
      ensures State() == Left(old(State()))
    {
      active := active - 1;
      if active == 0 {
        var idle := |channels| - 1;
        channels := channels[idle := channels[idle] + 1];
      }
    }

    method BeginClose() returns (idle: int)
      modifies this`closed, this`cancelled
      ensures (State(), idle) == BegunClose(old(State())) && cancelled
    {
      closed := true;
      cancelled := true;
      idle := if active > 0 then |channels| - 1 else -1;
    }
  }

  // ------------------------------------------------------------- whole runs

  datatype Closer = Waiting(channel: int) | Drained | TimedOut

  /** `handlers`: the requests admitted and not yet ended. */
  datatype World = World(gate: Gate, handlers: set<nat>, closers: seq<Closer>)

  datatype Move =
    | Request(handler: nat)
    | End(handler: nat)
    | Close
    | Wake(closer: nat)
    | Timeout(closer: nat)

  const FRESH := World(Gate(false, 0, []), {}, [])

  predicate Possible(w: World, move: Move) {
    match move
    case Request(h) => h !in w.handlers
    case End(h) => h in w.handlers
    case Close => true
    case Wake(c) => c < |w.closers| && w.closers[c].Waiting? &&
                    0 <= w.closers[c].channel < |w.gate.channels| && w.gate.channels[w.closers[c].channel] > 0
    case Timeout(c) => c < |w.closers| && w.closers[c].Waiting?
  }

  function Next(w: World, move: Move): World {
    match move
    case Request(h) =>
      var (gate, ok) := Entered(w.gate);
      w.(gate := gate, handlers := if ok then w.handlers + {h} else w.handlers)
    case End(h) => w.(gate := Left(w.gate), handlers := w.handlers - {h})
    case Close =>
      var (gate, idle) := BegunClose(w.gate);
      w.(gate := gate, closers := w.closers + [if idle < 0 then Drained else Waiting(idle)])
    case Wake(c) => if c < |w.closers| then w.(closers := w.closers[c := Drained]) else w
    case Timeout(c) => if c < |w.closers| then w.(closers := w.closers[c := TimedOut]) else w
  }

  ghost predicate Run(worlds: seq<World>, moves: seq<Move>) {
    && |worlds| == |moves| + 1 && worlds[0] == FRESH
    && forall i :: 0 <= i < |moves| ==> Possible(worlds[i], moves[i]) && worlds[i + 1] == Next(worlds[i], moves[i])
  }

  /** The current idle channel is open exactly while handlers run; older ones are closed. */
  ghost predicate GateInv(g: Gate) {
    var n := |g.channels|;
    && 0 <= g.active <= HANDLER_LIMIT
    && (forall i :: 0 <= i < n - 1 ==> g.channels[i] == 1)
    && (g.active > 0 ==> n > 0 && g.channels[n - 1] == 0)
    && (g.active == 0 && n > 0 ==> g.channels[n - 1] == 1)
  }

  ghost predicate CloserInv(g: Gate, c: Closer) {
    && g.closed
    && (c.Waiting? ==> c.channel == |g.channels| - 1 && |g.channels| > 0)
    && (c.Drained? ==> g.active == 0)
  }

  ghost predicate Inv(w: World) {
    && GateInv(w.gate)
    && w.gate.active == |w.handlers|
    && forall c :: 0 <= c < |w.closers| ==> CloserInv(w.gate, w.closers[c])
  }

  lemma MoveKeepsGate(w: World, move: Move)
    requires Inv(w) && Possible(w, move)
    ensures GateInv(Next(w, move).gate) && Next(w, move).gate.active == |Next(w, move).handlers|
  {
    hide CloserInv;
    if move.End? {
      assert (w.handlers - {move.handler}) + {move.handler} == w.handlers;
    }
  }

  lemma ClosersKept(g: Gate, g': Gate, closers: seq<Closer>)
    requires forall c :: 0 <= c < |closers| ==> CloserInv(g, closers[c])
    requires g.closed ==> g'.closed && |g'.channels| == |g.channels| && (g.active == 0 ==> g'.active == 0)
    ensures forall c :: 0 <= c < |closers| ==> CloserInv(g', closers[c])
  {
  }

  lemma MoveKeepsInv(w: World, move: Move)
    requires Inv(w) && Possible(w, move)
    ensures Inv(Next(w, move))
  {
    MoveKeepsGate(w, move);
    hide GateInv;
    WaitsOnly(w);
    match move
    case Request(h) => ClosersKept(w.gate, Entered(w.gate).0, w.closers);
    case End(h) => ClosersKept(w.gate, Left(w.gate), w.closers);
    case Close => ClosersKept(w.gate, BegunClose(w.gate).0, w.closers);
    case _ =>
  }

  /** What a Close captures, and what an idle gate means. */
  lemma WaitsOnly(w: World)
    requires Inv(w)
    ensures w.gate.active >= 0 && (w.gate.active > 0 ==> w.gate.channels != [])
    ensures w.gate.active == 0 ==> w.handlers == {}
    ensures forall c :: 0 <= c < |w.gate.channels| && w.gate.channels[c] > 0 && c == |w.gate.channels| - 1 ==> w.gate.active == 0
  {
  }

  lemma {:induction false} ReachableInv(worlds: seq<World>, moves: seq<Move>, n: nat)
    requires Run(worlds, moves) && n <= |moves|
    ensures Inv(worlds[n])
    decreases n
  {
    hide Inv, Next, Possible;
    if n == 0 {
      FreshInv();
    } else {
      ReachableInv(worlds, moves, n - 1);
      assert Possible(worlds[n - 1], moves[n - 1]) && worlds[n] == Next(worlds[n - 1], moves[n - 1]);
      MoveKeepsInv(worlds[n - 1], moves[n - 1]);
    }
  }

  lemma FreshInv()
    ensures Inv(FRESH)
  {
  }

  /** `idle` is open exactly while a handler runs, at most 8 run, and no channel
      is ever closed twice, at any point of any run. */
  lemma IdleTracksHandlers(worlds: seq<World>, moves: seq<Move>, n: nat)
    requires Run(worlds, moves) && n <= |moves|
    ensures var g := worlds[n].gate;
      && g.active == |worlds[n].handlers| <= HANDLER_LIMIT
      && (forall i :: 0 <= i < |g.channels| ==> g.channels[i] <= 1)
      && (g.active > 0 <==> g.channels != [] && g.channels[|g.channels| - 1] == 0)
  {
    hide Run;
    ReachableInv(worlds, moves, n);
  }

  lemma {:induction false} StaysDrained(worlds: seq<World>, moves: seq<Move>, c: nat, n: nat, m: nat)
    requires Run(worlds, moves) && n <= m <= |moves|
    requires c < |worlds[n].closers| && worlds[n].closers[c].Drained?
    ensures c < |worlds[m].closers| && worlds[m].closers[c].Drained?
    decreases m
  {
    if n < m {
      StaysDrained(worlds, moves, c, n, m - 1);
      assert Possible(worlds[m - 1], moves[m - 1]) && worlds[m] == Next(worlds[m - 1], moves[m - 1]);
    }
  }

  /** Once any call of Close has returned nil, no handler runs and none is ever
      admitted, whatever earlier calls timed out and whatever is called later. */
  lemma DrainIsFinal(worlds: seq<World>, moves: seq<Move>, c: nat, n: nat, m: nat)
    requires Run(worlds, moves) && n <= m <= |moves|
    requires c < |worlds[n].closers| && worlds[n].closers[c].Drained?
    ensures worlds[m].handlers == {} && !Entered(worlds[m].gate).1
  {
    StaysDrained(worlds, moves, c, n, m);
    ReachableInv(worlds, moves, m);
    hide Run;
    assert CloserInv(worlds[m].gate, worlds[m].closers[c]);
  }

  /** A waiting Close is woken exactly when the last handler has ended. */
  lemma CloseWakesExactly(worlds: seq<World>, moves: seq<Move>, n: nat, c: nat)
    requires Run(worlds, moves) && n <= |moves|
    requires c < |worlds[n].closers| && worlds[n].closers[c].Waiting?
    ensures Possible(worlds[n], Wake(c)) <==> worlds[n].handlers == {}
  {
    ReachableInv(worlds, moves, n);
    assert CloserInv(worlds[n].gate, worlds[n].closers[c]);
  }

  lemma {:induction false} ClosedSince(worlds: seq<World>, moves: seq<Move>, n: nat)
    requires Run(worlds, moves) && n <= |moves|
    ensures worlds[n].gate.closed <==> Close in moves[..n]
    decreases n
  {
    if n > 0 {
      ClosedSince(worlds, moves, n - 1);
      assert Possible(worlds[n - 1], moves[n - 1]) && worlds[n] == Next(worlds[n - 1], moves[n - 1]);
      assert moves[..n] == moves[..n - 1] + [moves[n - 1]];
    }
  }

  /** A request is admitted exactly if no Close was called before it and fewer
      than eight handlers are running. */
  lemma AdmitsExactly(worlds: seq<World>, moves: seq<Move>, n: nat, h: nat)
    requires Run(worlds, moves) && n < |moves| && moves[n] == Request(h)
    ensures h in worlds[n + 1].handlers <==> Close !in moves[..n] && |worlds[n].handlers| < 8
    ensures worlds[n + 1].handlers == worlds[n].handlers + if h in worlds[n + 1].handlers then {h} else {}
  {
    ReachableInv(worlds, moves, n);
    ClosedSince(worlds, moves, n);
    assert Possible(worlds[n], moves[n]) && worlds[n + 1] == Next(worlds[n], moves[n]);
  }
}
