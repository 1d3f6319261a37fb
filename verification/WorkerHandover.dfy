/** Handing the single active consumer over from one worker to the next.

    The queue has one active consumer; the broker sends it at most `prefetch` unacknowledged
    deliveries. A worker that shuts down first stops starting deliveries, then waits for its
    running handlers, and only then cancels its consumer. Connection loss and cancellation by
    the broker are not part of this system. */
module WorkerHandover {
  import opened Wrappers

  datatype Worker = Worker(
    draining: bool,
    registered: bool,    // has a consumer on the queue
    inFlight: nat,       // sent by the broker, not yet seen by the client
    running: nat,        // handlers in the client's active set
    held: nat)           // seen and left unacknowledged

  datatype State = State(prefetch: nat, workers: map<nat, Worker>, current: Option<nat>)

  datatype Label =
    | Join(w: nat, draining: bool)
    | Promote(w: nat)
    | Push(w: nat)
    | Receive(w: nat)
    | Finish(w: nat, acked: bool)
    | Drain(w: nat)
    | Cancel(w: nat)
    | Close(w: nat)

  function Unacked(x: Worker): nat {
    x.inFlight + x.running + x.held
  }

  /** What a step needs of, and does to, the worker it names. */
  predicate WorkerEnabled(x: Worker, l: Label) {
    match l
    case Receive(_) => x.inFlight > 0
    case Finish(_, _) => x.running > 0
    case Cancel(_) => x.draining && x.running == 0 && x.registered
    case Close(_) => x.draining && x.running == 0
    case _ => true
  }

  function WorkerNext(x: Worker, l: Label): Worker
    requires WorkerEnabled(x, l)
  {
    match l
    case Push(_) => x.(inFlight := x.inFlight + 1)
    case Receive(_) =>
      if x.draining then x.(inFlight := x.inFlight - 1, held := x.held + 1)
      else x.(inFlight := x.inFlight - 1, running := x.running + 1)
    case Finish(_, acked) => x.(running := x.running - 1, held := if acked then x.held else x.held + 1)
    case Drain(_) => x.(draining := true)
    case Cancel(_) => x.(registered := false)
    case _ => x
  }

  predicate Enabled(s: State, l: Label) {
    if l.Join? then l.w !in s.workers
    else
      && l.w in s.workers && WorkerEnabled(s.workers[l.w], l)
      && (l.Promote? ==> s.current.None? && s.workers[l.w].registered)
      && (l.Push? ==> s.current == Some(l.w) && Unacked(s.workers[l.w]) < s.prefetch)
  }

  function Released(s: State, w: nat): Option<nat> {
    if s.current == Some(w) then None else s.current
  }

  function Next(s: State, l: Label): State
    requires Enabled(s, l)
  {
    match l
    case Join(w, draining) => s.(workers := s.workers[w := Worker(draining, true, 0, 0, 0)])
    case Promote(w) => s.(current := Some(w))
    case Cancel(w) => s.(workers := s.workers[w := WorkerNext(s.workers[w], l)], current := Released(s, w))
    case Close(w) => s.(workers := s.workers - {w}, current := Released(s, w))
    case _ => s.(workers := s.workers[l.w := WorkerNext(s.workers[l.w], l)])
  }

  predicate IsRun(s: State, ls: seq<Label>)
    decreases ls
  {
    ls == [] || (Enabled(s, ls[0]) && IsRun(Next(s, ls[0]), ls[1..]))
  }

  function After(s: State, ls: seq<Label>): State
    requires IsRun(s, ls)
    decreases ls
  {
    if ls == [] then s else After(Next(s, ls[0]), ls[1..])
  }

  // --- The invariant ------------------------------------------------------------------------

  /** Only the current consumer runs anything, and a worker that is no longer the current
      consumer can never start a delivery that is still on its way. */
  predicate WorkerOk(s: State, w: nat)
    requires w in s.workers
  {
    var x := s.workers[w];
    && Unacked(x) <= s.prefetch
    && (s.current == Some(w) ==> x.registered)
    && (s.current != Some(w) ==> x.running == 0 && (x.inFlight == 0 || x.draining))
    && (!x.registered ==> x.draining)
  }

  predicate Inv(s: State) {
    (s.current.Some? ==> s.current.value in s.workers) && forall w :: w in s.workers ==> WorkerOk(s, w)
  }

  lemma StepKeepsInv(s: State, l: Label)
    requires Inv(s) && Enabled(s, l)
    ensures Inv(Next(s, l)) && Next(s, l).prefetch == s.prefetch
  {
    var t := Next(s, l);
    forall w | w in t.workers ensures WorkerOk(t, w) {
      assert w in s.workers ==> WorkerOk(s, w);
      assert l.w in s.workers ==> WorkerOk(s, l.w);
    }
  }

  // --- The cap ---------------------------------------------------------------------------------

  ghost function Pick(ws: map<nat, Worker>): (w: nat)
    requires ws != map[]
    ensures w in ws
  {
    assert ws.Keys != {};
    var w :| w in ws;
    w
  }

  /** Handlers running across all workers. */
  ghost function TotalRunning(ws: map<nat, Worker>): nat
    decreases |ws|
  {
    if ws == map[] then 0
    else
      var w := Pick(ws);
      ws[w].running + TotalRunning(ws - {w})
  }

  lemma {:induction false} OnlyOneRuns(ws: map<nat, Worker>, c: Option<nat>)
    requires forall w :: w in ws && c != Some(w) ==> ws[w].running == 0
    ensures TotalRunning(ws) == if c.Some? && c.value in ws then ws[c.value].running else 0
    decreases |ws|
  {
    if ws != map[] {
      OnlyOneRuns(ws - {Pick(ws)}, c);
    }
  }

  lemma {:induction false} RunKeepsInv(s: State, ls: seq<Label>)
    requires Inv(s) && IsRun(s, ls)
    ensures Inv(After(s, ls)) && After(s, ls).prefetch == s.prefetch
    decreases ls
  {
    if ls != [] {
      StepKeepsInv(s, ls[0]);
      RunKeepsInv(Next(s, ls[0]), ls[1..]);
    }
  }

  /** Graceful handover keeps the cap: with any number of workers joining, draining and closing
      in any order, no more than `prefetch` executions run at once across all of them. */
  lemma HandoverKeepsTheCap(prefetch: nat, ls: seq<Label>)
    requires IsRun(State(prefetch, map[], None), ls)
    ensures TotalRunning(After(State(prefetch, map[], None), ls).workers) <= prefetch
  {
    var s := After(State(prefetch, map[], None), ls);
    RunKeepsInv(State(prefetch, map[], None), ls);
    forall w | w in s.workers && s.current != Some(w) ensures s.workers[w].running == 0 {
      assert WorkerOk(s, w);
    }
    OnlyOneRuns(s.workers, s.current);
    if s.current.Some? {
      assert WorkerOk(s, s.current.value);
    }
  }
}
