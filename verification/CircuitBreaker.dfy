/** The circuit breaker of one provider. `execute` awaits the provider call, so it is split at
    the await: Begin runs before the call and Finish after it, and any number of calls overlap.
    Times are exact milliseconds. */
module CircuitBreaker {

  datatype Mode = Closed | Open | HalfOpen

  /** How a call ended: it resolved, or it threw something that isIgnored / isFailure classify. */
  datatype Outcome = Success | Transient | Permanent | Ignored

  datatype Options = Options(failureThreshold: nat, resetTimeoutMs: nat)

  predicate ValidOptions(o: Options) {
    o.failureThreshold >= 1 && o.resetTimeoutMs >= 1
  }

  /** The breaker's fields. */
  datatype Circuit = Circuit(mode: Mode, failures: nat, openedAt: real, generation: nat)

  datatype Snapshot = Snapshot(mode: Mode, failures: nat, retryAfterMs: real)

  const Fresh := Circuit(Closed, 0, 0.0, 0)

  function RetryAfter(o: Options, c: Circuit, now: real): real {
    match c.mode
    case Open =>
      var left := o.resetTimeoutMs as real - (now - c.openedAt);
      if left < 0.0 then 0.0 else left
    case HalfOpen => o.resetTimeoutMs as real
    case Closed => 0.0
  }

  /** A call may start: the circuit is closed, or its cooldown is over and no probe is out. */
  predicate Admits(o: Options, c: Circuit, now: real) {
    c.mode == Closed || (c.mode == Open && now - c.openedAt >= o.resetTimeoutMs as real)
  }

  function AfterBegin(c: Circuit): Circuit {
    if c.mode == Open then c.(mode := HalfOpen) else c
  }

  function AfterHealthy(c: Circuit): Circuit {
    Circuit(Closed, 0, c.openedAt, if c.mode == HalfOpen then c.generation + 1 else c.generation)
  }

  function AfterFailure(o: Options, c: Circuit, now: real): Circuit {
    if c.mode == HalfOpen || c.failures + 1 >= o.failureThreshold
    then Circuit(Open, c.failures + 1, now, c.generation + 1)
    else c.(failures := c.failures + 1)
  }

  /** A call that captured `generation` ends; late calls change nothing. */
  function AfterFinish(o: Options, c: Circuit, generation: nat, outcome: Outcome, now: real): Circuit {
    if generation != c.generation then c
    else match outcome
      case Success => AfterHealthy(c)
      case Permanent => AfterHealthy(c)
      case Transient => AfterFailure(o, c, now)
      case Ignored =>
        if c.mode == HalfOpen
        then c.(mode := Open, openedAt := now - o.resetTimeoutMs as real, generation := c.generation + 1)
        else c
  }

  // --- The class ------------------------------------------------------------------------------

  datatype Admission = Admitted(generation: nat) | Rejected(retryAfterMs: real)

  class Breaker {
    const options: Options
    var mode: Mode
    var failures: nat
    var openedAt: real
    var generation: nat

    function Value(): Circuit
      reads this
    {
      Circuit(mode, failures, openedAt, generation)
    }

    constructor (options: Options)
      requires ValidOptions(options)
      ensures this.options == options && Value() == Fresh
    {
      this.options := options;
      mode, failures, openedAt, generation := Closed, 0, 0.0, 0;
    }

    method TakeSnapshot(now: real) returns (r: Snapshot)
      ensures r == Snapshot(mode, failures, RetryAfter(options, Value(), now))
      ensures r.retryAfterMs >= 0.0
      ensures mode == Closed ==> r.retryAfterMs == 0.0
      ensures mode == HalfOpen ==> r.retryAfterMs == options.resetTimeoutMs as real
      ensures mode == Open ==>
                forall later :: later >= now ==>
                  (Admits(options, Value(), later) <==> later - now >= r.retryAfterMs)
    {
      var retryAfter := 0.0;
      if mode == Open {
        retryAfter := options.resetTimeoutMs as real - (now - openedAt);
        if retryAfter < 0.0 {
          retryAfter := 0.0;
        }
      } else if mode == HalfOpen {
        retryAfter := options.resetTimeoutMs as real;
      }
      r := Snapshot(mode, failures, retryAfter);
    }

    /** `execute` up to the await. */
    method Begin(now: real) returns (r: Admission)
      requires ValidOptions(options)
      modifies this`mode
      ensures r.Admitted? <==> old(Admits(options, Value(), now))
      ensures r.Admitted? ==> r.generation == generation && Value() == AfterBegin(old(Value()))
      ensures r.Rejected? ==> Value() == old(Value()) && r.retryAfterMs == RetryAfter(options, Value(), now) > 0.0
    {
      var s := TakeSnapshot(now);
      if s.mode == HalfOpen || s.retryAfterMs > 0.0 {
        return Rejected(s.retryAfterMs);
      }
      if mode == Open {
        mode := HalfOpen;
      }
      return Admitted(generation);
    }

    method RecordHealthy()
      modifies this
      ensures Value() == AfterHealthy(old(Value()))
    {
      if mode == HalfOpen {
        generation := generation + 1;
      }
      mode := Closed;
      failures := 0;
    }

    method RecordFailure(now: real)
      modifies this
      ensures Value() == AfterFailure(options, old(Value()), now)
    {
      failures := failures + 1;
      if mode == HalfOpen || failures >= options.failureThreshold {
        mode := Open;
        openedAt := now;
        generation := generation + 1;
      }
    }

    /** `execute` after the await. */
    method Finish(captured: nat, outcome: Outcome, now: real)
      modifies this
      ensures Value() == AfterFinish(options, old(Value()), captured, outcome, now)
    {
      if captured != generation {
        return;
      }
      if outcome == Success {
        RecordHealthy();
      } else if outcome == Ignored {
        if mode == HalfOpen {
          mode := Open;
          openedAt := now - options.resetTimeoutMs as real;
          generation := generation + 1;
        }
      } else if outcome == Transient {
        RecordFailure(now);
      } else {
        RecordHealthy();
      }
    }
  }

  // --- Overlapping calls ------------------------------------------------------------------------

  /** The breaker together with the calls in flight, each with the generation it captured. */
  datatype System = System(options: Options, circuit: Circuit, calls: map<nat, nat>, now: real)

  datatype Label =
    | Tick(time: real)
    | Start(call: nat)            // `execute` is called; it may be rejected
    | End(call: nat, outcome: Outcome)

  predicate Enabled(s: System, l: Label) {
    match l
    case Tick(time) => s.now <= time
    case Start(call) => call !in s.calls
    case End(call, _) => call in s.calls
  }

  function Next(s: System, l: Label): System
    requires Enabled(s, l)
  {
    match l
    case Tick(time) => s.(now := time)
    case Start(call) =>
      if Admits(s.options, s.circuit, s.now)
      then s.(circuit := AfterBegin(s.circuit), calls := s.calls[call := s.circuit.generation]) else s
    case End(call, outcome) =>
      s.(circuit := AfterFinish(s.options, s.circuit, s.calls[call], outcome, s.now), calls := s.calls - {call})
  }

  function Init(o: Options, now: real): System {
    System(o, Fresh, map[], now)
  }

  predicate IsRun(s: System, ls: seq<Label>)
    decreases ls
  {
    ls == [] || (Enabled(s, ls[0]) && IsRun(Next(s, ls[0]), ls[1..]))
  }

  function After(s: System, ls: seq<Label>): System
    requires IsRun(s, ls)
    decreases ls
  {
    if ls == [] then s else After(Next(s, ls[0]), ls[1..])
  }

  // --- The generation is a fencing token ----------------------------------------------------------

  /** The call's outcome will still be counted. */
  predicate IsCurrent(s: System, call: nat) {
    call in s.calls && s.calls[call] == s.circuit.generation
  }

  /** Open: nobody is current. Half-open: exactly one call is, the probe. The failure count says
      which of closed and not closed the circuit is in. */
  ghost predicate Inv(s: System) {
    && ValidOptions(s.options)
    && (forall call :: call in s.calls ==> s.calls[call] <= s.circuit.generation)
    && (s.circuit.mode == Open ==> forall call :: call in s.calls ==> !IsCurrent(s, call))
    && (s.circuit.mode == HalfOpen ==> exists probe :: IsCurrent(s, probe))
    && (s.circuit.mode == HalfOpen ==>
          forall a, b :: IsCurrent(s, a) && IsCurrent(s, b) ==> a == b)
    && (s.circuit.mode == Closed <==> s.circuit.failures < s.options.failureThreshold)
  }

  lemma StepKeepsInv(s: System, l: Label)
    requires Inv(s) && Enabled(s, l)
    ensures Inv(Next(s, l)) && Next(s, l).options == s.options
  {
    var t := Next(s, l);
    if l.Tick? {
      assert forall call :: IsCurrent(t, call) <==> IsCurrent(s, call);
    } else if l.Start? {
      assert forall call :: call != l.call ==> (IsCurrent(t, call) <==> IsCurrent(s, call));
      assert Admits(s.options, s.circuit, s.now) ==> IsCurrent(t, l.call);
    } else if !IsCurrent(s, l.call) {
      assert forall call :: call != l.call ==> (IsCurrent(t, call) <==> IsCurrent(s, call));
    } else {
      assert forall call :: IsCurrent(t, call) ==> call != l.call && IsCurrent(s, call);
    }
  }

  lemma {:induction false} RunKeepsInv(s: System, ls: seq<Label>)
    requires Inv(s) && IsRun(s, ls)
    ensures Inv(After(s, ls)) && After(s, ls).options == s.options
    decreases ls
  {
    if ls != [] {
      StepKeepsInv(s, ls[0]);
      RunKeepsInv(Next(s, ls[0]), ls[1..]);
    }
  }

  /** After any history of overlapping calls: an open circuit listens to no call in flight, a
      half-open one to exactly one probe, and whatever the outcome of that probe it leaves
      half-open, so recovery can neither double up nor get stuck. */
  lemma AtMostOneProbe(o: Options, start: real, ls: seq<Label>)
    requires ValidOptions(o) && IsRun(Init(o, start), ls)
    ensures var s := After(Init(o, start), ls);
            && (s.circuit.mode == Open ==> forall call :: call in s.calls ==> !IsCurrent(s, call))
            && (s.circuit.mode == HalfOpen ==>
                  exists probe :: IsCurrent(s, probe)
                    && (forall other :: IsCurrent(s, other) ==> other == probe)
                    && forall outcome: Outcome :: Next(s, End(probe, outcome)).circuit.mode != HalfOpen)
            && (s.circuit.mode == Closed <==> s.circuit.failures < o.failureThreshold)
  {
    RunKeepsInv(Init(o, start), ls);
    var s := After(Init(o, start), ls);
    if s.circuit.mode == HalfOpen {
      var probe :| IsCurrent(s, probe);
      forall outcome: Outcome ensures Next(s, End(probe, outcome)).circuit.mode != HalfOpen {
      }
    }
  }

  /** Calls that an earlier generation admitted never count again, for the rest of any run. */
  lemma {:induction false} GenerationsOnlyGrow(s: System, ls: seq<Label>)
    requires IsRun(s, ls)
    ensures After(s, ls).circuit.generation >= s.circuit.generation
    decreases ls
  {
    if ls != [] {
      GenerationsOnlyGrow(Next(s, ls[0]), ls[1..]);
    }
  }

  /** The calls that an observer without generations would listen to: those admitted since the
      circuit last changed its mode. */
  function Heard(heard: set<nat>, s: System, l: Label): set<nat>
    requires Enabled(s, l)
  {
    var t := Next(s, l);
    var kept := if t.circuit.mode == s.circuit.mode then heard else {};
    match l
    case Tick(_) => kept
    case Start(call) => if call in t.calls then kept + {call} else kept
    case End(call, _) => kept - {call}
  }

  function HeardAfter(heard: set<nat>, s: System, ls: seq<Label>): set<nat>
    requires IsRun(s, ls)
    decreases ls
  {
    if ls == [] then heard else HeardAfter(Heard(heard, s, ls[0]), Next(s, ls[0]), ls[1..])
  }

  ghost predicate Hears(s: System, heard: set<nat>) {
    forall call :: call in heard <==> IsCurrent(s, call)
  }

  lemma StepHears(s: System, heard: set<nat>, l: Label)
    requires Inv(s) && Hears(s, heard) && Enabled(s, l)
    ensures Hears(Next(s, l), Heard(heard, s, l))
  {
    var t, after := Next(s, l), Heard(heard, s, l);
    forall call ensures call in after <==> IsCurrent(t, call) {
      assert call in heard <==> IsCurrent(s, call);
      if !l.Tick? {
        assert l.call in heard <==> IsCurrent(s, l.call);
      }
    }
  }

  lemma {:induction false} RunHears(s: System, heard: set<nat>, ls: seq<Label>)
    requires Inv(s) && Hears(s, heard) && IsRun(s, ls)
    ensures Hears(After(s, ls), HeardAfter(heard, s, ls))
    decreases ls
  {
    if ls != [] {
      StepKeepsInv(s, ls[0]);
      StepHears(s, heard, ls[0]);
      RunHears(Next(s, ls[0]), Heard(heard, s, ls[0]), ls[1..]);
    }
  }

  /** The generation counter does exactly its job: after any run, the outcomes that still count
      are those of the calls admitted since the circuit last changed its mode. */
  lemma CurrentMeansSinceModeChange(o: Options, start: real, ls: seq<Label>, call: nat)
    requires ValidOptions(o) && IsRun(Init(o, start), ls)
    ensures IsCurrent(After(Init(o, start), ls), call) <==> call in HeardAfter({}, Init(o, start), ls)
  {
    RunHears(Init(o, start), {}, ls);
  }

  lemma LateOutcomesAreIgnored(s: System, ls: seq<Label>, call: nat, outcome: Outcome)
    requires IsRun(s, ls) && call in After(s, ls).calls
    requires After(s, ls).calls[call] < s.circuit.generation
    ensures Next(After(s, ls), End(call, outcome)).circuit == After(s, ls).circuit
  {
    GenerationsOnlyGrow(s, ls);
  }

  // --- The circuit is a fold of its counted history -------------------------------------------------

  /** The health verdict a step contributes: nothing for ignored outcomes and for calls from before
      the last change of mode. */
  function Verdict(heard: set<nat>, l: Label): seq<bool> {
    if l.End? && l.call in heard && l.outcome != Ignored then [l.outcome != Transient] else []
  }

  function Verdicts(heard: set<nat>, s: System, ls: seq<Label>): seq<bool>
    requires IsRun(s, ls)
    decreases ls
  {
    if ls == [] then []
    else Verdict(heard, ls[0]) + Verdicts(Heard(heard, s, ls[0]), Next(s, ls[0]), ls[1..])
  }

  /** How many failures a history ends with. */
  function Trailing(history: seq<bool>): nat {
    if history == [] || history[|history| - 1] then 0 else 1 + Trailing(history[..|history| - 1])
  }

  lemma TrailingSnoc(history: seq<bool>, healthy: bool)
    ensures Trailing(history + [healthy]) == if healthy then 0 else 1 + Trailing(history)
  {
    assert (history + [healthy])[..|history|] == history;
  }

  lemma StepTrailing(s: System, heard: set<nat>, l: Label, before: seq<bool>)
    requires Enabled(s, l) && Hears(s, heard) && s.circuit.failures == Trailing(before)
    ensures Next(s, l).circuit.failures == Trailing(before + Verdict(heard, l))
  {
    var v := Verdict(heard, l);
    assert l.End? ==> (l.call in heard <==> IsCurrent(s, l.call));
    if v == [] {
      assert before + v == before;
    } else {
      TrailingSnoc(before, v[0]);
    }
  }

  lemma {:induction false} FailuresAreTrailing(s: System, heard: set<nat>, ls: seq<Label>, before: seq<bool>)
    requires Inv(s) && Hears(s, heard) && IsRun(s, ls) && s.circuit.failures == Trailing(before)
    ensures After(s, ls).circuit.failures == Trailing(before + Verdicts(heard, s, ls))
    decreases ls
  {
    if ls == [] {
      assert before + [] == before;
    } else {
      var v := Verdict(heard, ls[0]);
      var t, after := Next(s, ls[0]), Heard(heard, s, ls[0]);
      StepKeepsInv(s, ls[0]);
      StepHears(s, heard, ls[0]);
      StepTrailing(s, heard, ls[0], before);
      FailuresAreTrailing(t, after, ls[1..], before + v);
      assert before + v + Verdicts(after, t, ls[1..]) == before + (v + Verdicts(after, t, ls[1..]));
    }
  }

  /** The failure count is the number of trailing transient failures among the outcomes, other than
      ignored ones, of calls admitted since the last change of mode; and the circuit is closed
      exactly while that number is below the threshold. */
  lemma CircuitIsAFold(o: Options, start: real, ls: seq<Label>)
    requires ValidOptions(o) && IsRun(Init(o, start), ls)
    ensures var s := After(Init(o, start), ls);
            var failures := Trailing(Verdicts({}, Init(o, start), ls));
            s.circuit.failures == failures && (s.circuit.mode == Closed <==> failures < o.failureThreshold)
  {
    FailuresAreTrailing(Init(o, start), {}, ls, []);
    assert [] + Verdicts({}, Init(o, start), ls) == Verdicts({}, Init(o, start), ls);
    AtMostOneProbe(o, start, ls);
  }

  // --- Cooldown ---------------------------------------------------------------------------------------

  lemma {:induction false} ClockOnlyAdvances(s: System, ls: seq<Label>)
    requires IsRun(s, ls)
    ensures s.now <= After(s, ls).now
    decreases ls
  {
    if ls != [] {
      ClockOnlyAdvances(Next(s, ls[0]), ls[1..]);
    }
  }

  lemma {:induction false} OpenUntilCooldown(s: System, ls: seq<Label>)
    requires Inv(s) && IsRun(s, ls) && s.circuit.mode == Open
    requires After(s, ls).now - s.circuit.openedAt < s.options.resetTimeoutMs as real
    ensures After(s, ls).circuit == s.circuit && After(s, ls).calls.Keys <= s.calls.Keys
    decreases ls
  {
    if ls != [] {
      StepKeepsInv(s, ls[0]);
      ClockOnlyAdvances(s, ls);
      ClockOnlyAdvances(Next(s, ls[0]), ls[1..]);
      assert Next(s, ls[0]).circuit == s.circuit;
      OpenUntilCooldown(Next(s, ls[0]), ls[1..]);
    }
  }

  /** When a failure opens the circuit, no call at all is admitted until the reset timeout has
      passed, whatever the calls still in flight report in the meantime; a call is admitted from
      exactly then on. */
  lemma FailureStartsCooldown(s: System, call: nat, ls: seq<Label>)
    requires Inv(s) && Enabled(s, End(call, Transient))
    requires s.circuit.mode != Open && Next(s, End(call, Transient)).circuit.mode == Open
    requires var t := Next(s, End(call, Transient));
             IsRun(t, ls) && After(t, ls).now < s.now + s.options.resetTimeoutMs as real
    ensures var t := Next(s, End(call, Transient));
            && After(t, ls).circuit == t.circuit
            && After(t, ls).calls.Keys <= t.calls.Keys
            && forall later :: later >= s.now ==>
                 (Admits(s.options, After(t, ls).circuit, later) <==> later - s.now >= s.options.resetTimeoutMs as real)
  {
    StepKeepsInv(s, End(call, Transient));
    OpenUntilCooldown(Next(s, End(call, Transient)), ls);
  }

  /** A probe that ends without a verdict hands its slot to the next caller at once and leaves
      the failure count alone. */
  lemma IgnoredProbeReopensTheSlot(s: System, probe: nat, next: nat)
    requires Inv(s) && s.circuit.mode == HalfOpen && IsCurrent(s, probe) && next !in s.calls
    ensures var t := Next(s, End(probe, Ignored));
            var u := Next(t, Start(next));
            && t.circuit.failures == s.circuit.failures
            && u.circuit.mode == HalfOpen && IsCurrent(u, next) && u.circuit.failures == s.circuit.failures
  {
  }
}
