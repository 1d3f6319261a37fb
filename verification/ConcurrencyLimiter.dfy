/** The in-memory concurrency limiter: a semaphore with a bounded FIFO queue and direct hand-off.

    `acquire` either settles at once or leaves a waiter in the queue; a timer, an abort signal or
    a released permit settles the waiter later. Callers are numbered in order of arrival and
    permits in order of admission. `held` is the set of permits whose `released` flag is false. */
module ConcurrencyLimiter {
  import opened Wrappers

  datatype Options = Options(maxConcurrent: nat, maxQueueSize: nat)

  /** validateOptions */
  predicate ValidOptions(o: Options) {
    o.maxConcurrent >= 1
  }

  datatype State = State(
    options: Options,
    active: int,
    queue: seq<nat>,
    admitted: nat,
    rejected: nat,
    timedOut: nat,
    aborted: nat,
    arrivals: nat,
    held: set<nat>)

  datatype Label =
    | Acquire(alreadyAborted: bool)
    | TimeOut(caller: nat)
    | Abort(caller: nat)
    | Release(permit: nat)      // `release` on any permit ever handed out, any number of times

  function Init(o: Options): State {
    State(o, 0, [], 0, 0, 0, 0, 0, {})
  }

  // --- Transitions ---------------------------------------------------------------------------

  /** The queue without the caller's first entry. */
  function Removed(queue: seq<nat>, caller: nat): seq<nat> {
    if queue == [] then []
    else if queue[0] == caller then queue[1..]
    else [queue[0]] + Removed(queue[1..], caller)
  }

  /** `admit`: a new permit, numbered by the admissions so far. */
  function Admit(s: State): State {
    s.(admitted := s.admitted + 1, held := s.held + {s.admitted})
  }

  function AfterAcquire(s: State, alreadyAborted: bool): State {
    var s1 := s.(arrivals := s.arrivals + 1);
    if alreadyAborted then s1.(aborted := s.aborted + 1)
    else if s.active < s.options.maxConcurrent then Admit(s1.(active := s.active + 1))
    else if |s.queue| >= s.options.maxQueueSize then s1.(rejected := s.rejected + 1)
    else s1.(queue := s.queue + [s.arrivals])
  }

  function AfterRelease(s: State, permit: nat): State {
    if permit !in s.held then s
    else
      var s1 := s.(held := s.held - {permit});
      if s.queue == [] then s1.(active := s.active - 1)
      else Admit(s1.(queue := s.queue[1..]))
  }

  function Next(s: State, l: Label): State {
    match l
    case Acquire(alreadyAborted) => AfterAcquire(s, alreadyAborted)
    case TimeOut(caller) =>
      if caller in s.queue then s.(queue := Removed(s.queue, caller), timedOut := s.timedOut + 1) else s
    case Abort(caller) =>
      if caller in s.queue then s.(queue := Removed(s.queue, caller), aborted := s.aborted + 1) else s
    case Release(permit) => AfterRelease(s, permit)
  }

  function After(s: State, ls: seq<Label>): State
    decreases ls
  {
    if ls == [] then s else After(Next(s, ls[0]), ls[1..])
  }

  // --- The class --------------------------------------------------------------------------------

  datatype Acquired = Admitted(permit: nat) | QueueFull | Cancelled | Waiting(caller: nat)

  class Limiter {
    const options: Options
    var active: int
    var queue: seq<nat>
    var admitted: nat
    var rejected: nat
    var timedOut: nat
    var aborted: nat
    var arrivals: nat
    var held: set<nat>

    function Value(): State
      reads this
    {
      State(options, active, queue, admitted, rejected, timedOut, aborted, arrivals, held)
    }

    constructor (options: Options)
      requires ValidOptions(options)
      ensures Value() == Init(options)
    {
      this.options := options;
      active, queue, arrivals, held := 0, [], 0, {};
      admitted, rejected, timedOut, aborted := 0, 0, 0, 0;
    }

    method NewPermit() returns (permit: nat)
      modifies this`admitted, this`held
      ensures permit == old(admitted) && Value() == Admit(old(Value()))
    {
      permit := admitted;
      admitted := admitted + 1;
      held := held + {permit};
    }

    method Acquire(alreadyAborted: bool) returns (r: Acquired)
      modifies this
      ensures Value() == Next(old(Value()), Label.Acquire(alreadyAborted))
      ensures r.Cancelled? <==> alreadyAborted
      ensures r.Admitted? <==> !alreadyAborted && old(active) < options.maxConcurrent
      ensures r.Admitted? ==> r.permit == old(admitted) && r.permit in held
      ensures r.QueueFull? <==>
                !alreadyAborted && old(active) >= options.maxConcurrent && |old(queue)| >= options.maxQueueSize
      ensures r.Waiting? <==>
                !alreadyAborted && old(active) >= options.maxConcurrent && |old(queue)| < options.maxQueueSize
      ensures queue == if r.Waiting? then old(queue) + [r.caller] else old(queue)
      ensures r.Waiting? ==> r.caller == old(arrivals)
    {
      var caller := arrivals;
      arrivals := arrivals + 1;
      if alreadyAborted {
        aborted := aborted + 1;
        return Cancelled;
      }
      if active < options.maxConcurrent {
        active := active + 1;
        var permit := NewPermit();
        return Admitted(permit);
      }
      if |queue| >= options.maxQueueSize {
        rejected := rejected + 1;
        return QueueFull;
      }
      queue := queue + [caller];
      return Waiting(caller);
    }

    /** Search the queue for the waiter and splice it out. */
    method Remove(caller: nat) returns (found: bool)
      modifies this`queue
      ensures found <==> caller in old(queue)
      ensures queue == if found then Removed(old(queue), caller) else old(queue)
    {
      var index := 0;
      while index < |queue| && queue[index] != caller
        invariant 0 <= index <= |queue|
        invariant caller !in queue[..index]
      {
        index := index + 1;
      }
      if index == |queue| {
        assert queue[..index] == queue;
        return false;
      }
      RemovedIsSplice(queue, caller, index);
      queue := queue[..index] + queue[index + 1..];
      return true;
    }

    method OnTimeout(caller: nat) returns (rejects: bool)
      modifies this`queue, this`timedOut
      ensures Value() == Next(old(Value()), Label.TimeOut(caller))
      ensures rejects <==> caller in old(queue)
    {
      rejects := Remove(caller);
      if rejects {
        timedOut := timedOut + 1;
      }
    }

    method OnAbort(caller: nat) returns (rejects: bool)
      modifies this`queue, this`aborted
      ensures Value() == Next(old(Value()), Label.Abort(caller))
      ensures rejects <==> caller in old(queue)
    {
      rejects := Remove(caller);
      if rejects {
        aborted := aborted + 1;
      }
    }

    /** Releasing hands the slot to the oldest waiter, if any; a second release does nothing. */
    method Release(permit: nat) returns (handedTo: Option<nat>)
      modifies this
      ensures Value() == Next(old(Value()), Label.Release(permit))
      ensures handedTo == if permit in old(held) && old(queue) != [] then Some(old(queue)[0]) else None
    {
      if permit !in held {
        return None;
      }
      held := held - {permit};
      if queue == [] {
        active := active - 1;
        return None;
      }
      handedTo := Some(queue[0]);
      queue := queue[1..];
      var _ := NewPermit();
    }
  }

  lemma {:induction false} RemovedIsSplice(queue: seq<nat>, caller: nat, index: nat)
    requires index < |queue| && queue[index] == caller && caller !in queue[..index]
    ensures Removed(queue, caller) == queue[..index] + queue[index + 1..]
  {
    if index > 0 {
      assert queue[0] == queue[..index][0];
      assert caller !in queue[1..][..index - 1] by {
        assert queue[1..][..index - 1] == queue[..index][1..];
      }
      RemovedIsSplice(queue[1..], caller, index - 1);
      assert queue[..index] + queue[index + 1..]
          == [queue[0]] + (queue[1..][..index - 1] + queue[1..][index..]);
    }
  }

  // --- Invariant -----------------------------------------------------------------------------------

  predicate Increasing(q: seq<nat>) {
    forall i, j :: 0 <= i < j < |q| ==> q[i] < q[j]
  }

  predicate Below(q: seq<nat>, bound: nat) {
    forall i :: 0 <= i < |q| ==> q[i] < bound
  }

  predicate Inv(s: State) {
    && ValidOptions(s.options)
    && PermitsOk(s.held, s.active, s.admitted) && s.active <= s.options.maxConcurrent
    && |s.queue| <= s.options.maxQueueSize
    && (s.queue != [] ==> s.active == s.options.maxConcurrent)
    && QueueOk(s.queue, s.arrivals)
    && s.arrivals == s.admitted + s.rejected + s.timedOut + s.aborted + |s.queue|
  }

  lemma ConsIncreasing(x: nat, q: seq<nat>)
    requires Increasing(q) && forall y :: y in q ==> x < y
    ensures Increasing([x] + q)
  {
    var r := [x] + q;
    forall i, j | 0 <= i < j < |r| ensures r[i] < r[j] {
      assert r[j] == q[j - 1] && q[j - 1] in q;
    }
  }

  lemma {:induction false} RemovedMembers(q: seq<nat>, caller: nat)
    requires Increasing(q) && caller in q
    ensures |Removed(q, caller)| == |q| - 1
    ensures forall x :: x in Removed(q, caller) <==> x in q && x != caller
  {
    var tail := q[1..];
    assert forall x :: x in q <==> x == q[0] || x in tail;
    if q[0] != caller {
      RemovedMembers(tail, caller);
    }
  }

  lemma {:induction false} RemovedKeepsOrder(q: seq<nat>, caller: nat, bound: nat)
    requires Increasing(q) && Below(q, bound) && caller in q
    ensures var r := Removed(q, caller);
            && Increasing(r) && Below(r, bound) && |r| == |q| - 1
            && forall x :: x in r <==> x in q && x != caller
  {
    RemovedMembers(q, caller);
    if q[0] != caller {
      RemovedMembers(q[1..], caller);
      RemovedKeepsOrder(q[1..], caller, bound);
      ConsIncreasing(q[0], Removed(q[1..], caller));
    }
  }

  predicate QueueOk(q: seq<nat>, arrivals: nat) {
    Increasing(q) && Below(q, arrivals)
  }

  predicate PermitsOk(held: set<nat>, active: int, admitted: nat) {
    active == |held| && forall p :: p in held ==> p < admitted
  }

  lemma NewPermitOk(held: set<nat>, active: int, admitted: nat)
    requires PermitsOk(held, active, admitted)
    ensures PermitsOk(held + {admitted}, active + 1, admitted + 1)
  {
  }

  lemma OldPermitOk(held: set<nat>, active: int, admitted: nat, permit: nat)
    requires PermitsOk(held, active, admitted) && permit in held
    ensures PermitsOk(held - {permit}, active - 1, admitted)
  {
  }

  lemma AcquireKeepsInv(s: State, alreadyAborted: bool)
    requires Inv(s)
    ensures Inv(AfterAcquire(s, alreadyAborted))
  {
    NewPermitOk(s.held, s.active, s.admitted);
  }

  lemma ReleaseKeepsInv(s: State, permit: nat)
    requires Inv(s) && permit in s.held
    ensures Inv(AfterRelease(s, permit))
  {
    OldPermitOk(s.held, s.active, s.admitted, permit);
    NewPermitOk(s.held - {permit}, s.active - 1, s.admitted);
  }

  lemma RemovalKeepsInv(s: State, l: Label)
    requires Inv(s) && (l.TimeOut? || l.Abort?) && l.caller in s.queue
    ensures Inv(Next(s, l))
  {
    RemovedKeepsOrder(s.queue, l.caller, s.arrivals);
  }

  lemma StepKeepsInv(s: State, l: Label)
    requires Inv(s)
    ensures Inv(Next(s, l)) && Next(s, l).options == s.options
  {
    match l {
      case Acquire(alreadyAborted) => AcquireKeepsInv(s, alreadyAborted);
      case Release(permit) => if permit in s.held { ReleaseKeepsInv(s, permit); }
      case _ => if l.caller in s.queue { RemovalKeepsInv(s, l); }
    }
  }

  lemma {:induction false} RunKeepsInv(s: State, ls: seq<Label>)
    requires Inv(s)
    ensures Inv(After(s, ls)) && After(s, ls).options == s.options
    decreases ls
  {
    if ls != [] {
      StepKeepsInv(s, ls[0]);
      RunKeepsInv(Next(s, ls[0]), ls[1..]);
    }
  }

  /** Safety and conservation after every sequence of calls, timeouts, aborts and releases
      (double releases included): active slots are the unreleased permits and never exceed the
      limit, the queue never exceeds its bound and is non-empty only while every slot is taken,
      and every acquire call is accounted for exactly once. */
  lemma LimiterIsSafe(o: Options, ls: seq<Label>)
    requires ValidOptions(o)
    ensures var s := After(Init(o), ls);
            && s.active == |s.held| && 0 <= s.active <= o.maxConcurrent
            && |s.queue| <= o.maxQueueSize
            && (s.queue != [] ==> s.active == o.maxConcurrent)
            && s.arrivals == s.admitted + s.rejected + s.timedOut + s.aborted + |s.queue|
  {
    RunKeepsInv(Init(o), ls);
  }

  // --- What the counters count ------------------------------------------------------------------------

  predicate AllBusy(s: State) {
    s.active >= s.options.maxConcurrent
  }

  /** A caller is turned away: every slot is taken and the queue is full. */
  predicate Refuses(s: State, l: Label) {
    l == Acquire(false) && AllBusy(s) && |s.queue| >= s.options.maxQueueSize
  }

  /** A permit is given out: to a caller that finds a free slot, or to a waiter on release. */
  predicate Admits(s: State, l: Label) {
    (l == Acquire(false) && !AllBusy(s)) || (l.Release? && l.permit in s.held && s.queue != [])
  }

  predicate TimesOut(s: State, l: Label) {
    l.TimeOut? && l.caller in s.queue
  }

  predicate Aborts(s: State, l: Label) {
    l == Acquire(true) || (l.Abort? && l.caller in s.queue)
  }

  /** How many steps of a run are of this kind. */
  function Count(s: State, ls: seq<Label>, kind: (State, Label) -> bool): nat
    decreases ls
  {
    if ls == [] then 0 else Bit(kind(s, ls[0])) + Count(Next(s, ls[0]), ls[1..], kind)
  }

  lemma StepCounters(s: State, l: Label)
    ensures var t := Next(s, l);
            && t.rejected == s.rejected + Bit(Refuses(s, l)) && t.admitted == s.admitted + Bit(Admits(s, l))
            && t.timedOut == s.timedOut + Bit(TimesOut(s, l)) && t.aborted == s.aborted + Bit(Aborts(s, l))
  {
  }

  lemma {:induction false} RunCounters(s: State, ls: seq<Label>)
    ensures var t := After(s, ls);
            && t.rejected == s.rejected + Count(s, ls, Refuses) && t.admitted == s.admitted + Count(s, ls, Admits)
            && t.timedOut == s.timedOut + Count(s, ls, TimesOut) && t.aborted == s.aborted + Count(s, ls, Aborts)
    decreases ls
  {
    if ls != [] {
      StepCounters(s, ls[0]);
      RunCounters(Next(s, ls[0]), ls[1..]);
    }
  }

  /** Over every run each counter is the number of steps that it is named after; in particular a
      caller is refused only when all slots are taken and the queue is full, and always then. */
  lemma CountersTell(o: Options, ls: seq<Label>)
    requires ValidOptions(o)
    ensures var s := After(Init(o), ls);
            && s.rejected == Count(Init(o), ls, Refuses) && s.admitted == Count(Init(o), ls, Admits)
            && s.timedOut == Count(Init(o), ls, TimesOut) && s.aborted == Count(Init(o), ls, Aborts)
  {
    RunCounters(Init(o), ls);
  }

  // --- Fairness ---------------------------------------------------------------------------------------

  /** The waiter that a step hands a slot to. */
  function HandOff(s: State, l: Label): seq<nat> {
    if l.Release? && l.permit in s.held && s.queue != [] then [s.queue[0]] else []
  }

  function HandOffs(s: State, ls: seq<Label>): seq<nat>
    decreases ls
  {
    if ls == [] then [] else HandOff(s, ls[0]) + HandOffs(Next(s, ls[0]), ls[1..])
  }

  lemma ArrivalsGrow(s: State, l: Label)
    ensures Next(s, l).arrivals == s.arrivals + if l.Acquire? then 1 else 0
  {
  }

  /** The queue after a step: waiters from before, and possibly the newest caller. */
  lemma QueueOrigin(s: State, l: Label, x: nat)
    requires Inv(s) && x in Next(s, l).queue
    ensures x in s.queue || x == s.arrivals
    ensures HandOff(s, l) != [] ==> HandOff(s, l)[0] < x
  {
    if (l.TimeOut? || l.Abort?) && l.caller in s.queue {
      RemovedKeepsOrder(s.queue, l.caller, s.arrivals);
    }
  }

  lemma {:induction false} HandOffsIncrease(s: State, ls: seq<Label>)
    requires Inv(s)
    ensures Increasing(HandOffs(s, ls))
    ensures forall x :: x in HandOffs(s, ls) ==> x in s.queue || x >= s.arrivals
    decreases ls
  {
    if ls != [] {
      var t := Next(s, ls[0]);
      StepKeepsInv(s, ls[0]);
      HandOffsIncrease(t, ls[1..]);
      var first, rest := HandOff(s, ls[0]), HandOffs(t, ls[1..]);
      forall x | x in rest
        ensures x in s.queue || x >= s.arrivals
        ensures first != [] ==> first[0] < x
      {
        ArrivalsGrow(s, ls[0]);
        if x in t.queue {
          QueueOrigin(s, ls[0], x);
        }
      }
      if first != [] {
        ConsIncreasing(first[0], rest);
      } else {
        assert first + rest == rest;
      }
    }
  }

  /** Fairness: over any run, slots are handed over in order of arrival; the waiter that gets one
      arrived before everyone still waiting; and a newcomer is admitted at once only when nobody
      waits. */
  lemma HandOffsAreFifo(o: Options, ls: seq<Label>, l: Label)
    requires ValidOptions(o)
    ensures Increasing(HandOffs(Init(o), ls))
    ensures var s := After(Init(o), ls);
            && (HandOff(s, l) != [] ==> forall x :: x in Next(s, l).queue ==> HandOff(s, l)[0] < x)
            && (l.Acquire? && Next(s, l).admitted > s.admitted ==> s.queue == [])
  {
    RunKeepsInv(Init(o), ls);
    HandOffsIncrease(Init(o), ls);
    var s := After(Init(o), ls);
    forall x | HandOff(s, l) != [] && x in Next(s, l).queue ensures HandOff(s, l)[0] < x {
      QueueOrigin(s, l, x);
    }
  }

  // --- Every waiter settles once ----------------------------------------------------------------------

  datatype Event = Joined(caller: nat) | Settled(caller: nat)

  function Effect(s: State, l: Label): multiset<Event> {
    match l
    case Acquire(_) =>
      if |Next(s, l).queue| > |s.queue| then multiset{Joined(s.arrivals)} else multiset{}
    case Release(_) => if HandOff(s, l) != [] then multiset{Settled(s.queue[0])} else multiset{}
    case TimeOut(caller) => if caller in s.queue then multiset{Settled(caller)} else multiset{}
    case Abort(caller) => if caller in s.queue then multiset{Settled(caller)} else multiset{}
  }

  function History(s: State, ls: seq<Label>): multiset<Event>
    decreases ls
  {
    if ls == [] then multiset{} else Effect(s, ls[0]) + History(Next(s, ls[0]), ls[1..])
  }

  function Bit(b: bool): nat {
    if b then 1 else 0
  }

  lemma StepBalance(s: State, l: Label, caller: nat)
    requires Inv(s)
    ensures Effect(s, l)[Joined(caller)] + Bit(caller in s.queue)
            == Effect(s, l)[Settled(caller)] + Bit(caller in Next(s, l).queue)
    ensures Effect(s, l)[Joined(caller)] <= Bit(l.Acquire? && caller == s.arrivals)
  {
    if l.TimeOut? || l.Abort? {
      if l.caller in s.queue {
        RemovedKeepsOrder(s.queue, l.caller, s.arrivals);
      }
    } else if l.Release? && HandOff(s, l) != [] {
      assert s.queue == [s.queue[0]] + s.queue[1..];
      assert s.queue[0] !in s.queue[1..];
    }
  }

  lemma {:induction false} RunBalance(s: State, ls: seq<Label>, caller: nat)
    requires Inv(s)
    ensures History(s, ls)[Joined(caller)] + Bit(caller in s.queue)
            == History(s, ls)[Settled(caller)] + Bit(caller in After(s, ls).queue)
    ensures History(s, ls)[Joined(caller)] <= Bit(caller >= s.arrivals)
    decreases ls
  {
    if ls != [] {
      StepKeepsInv(s, ls[0]);
      ArrivalsGrow(s, ls[0]);
      StepBalance(s, ls[0], caller);
      RunBalance(Next(s, ls[0]), ls[1..], caller);
      var first, rest := Effect(s, ls[0]), History(Next(s, ls[0]), ls[1..]);
      assert History(s, ls)[Joined(caller)] == first[Joined(caller)] + rest[Joined(caller)];
      assert History(s, ls)[Settled(caller)] == first[Settled(caller)] + rest[Settled(caller)];
    }
  }

  /** A caller joins the queue at most once and is settled exactly once by a hand-off, a timeout
      or an abort, unless it is still waiting. */
  lemma WaitersSettleOnce(o: Options, ls: seq<Label>, caller: nat)
    requires ValidOptions(o)
    ensures var h := History(Init(o), ls);
            && h[Joined(caller)] <= 1
            && h[Joined(caller)] == h[Settled(caller)] + Bit(caller in After(Init(o), ls).queue)
  {
    RunBalance(Init(o), ls, caller);
  }
}
