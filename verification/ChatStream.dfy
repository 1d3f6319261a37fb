/** One request to /v1/chat/stream: the route handler, the router that it calls and the consumer
    that connects them.

    What the environment decides is an oracle: whether the cancellation signal has fired when it
    is looked at for the n-th time, how the n-th socket write ends, whether each circuit admits
    the call, and what each provider emits before it settles. A provider emits nothing after it
    has settled, and it passes on the error of a consumer that fails. */
module ChatStream {
  import opened Wrappers

  datatype Fault =
    | RequestAborted
    | StreamConsumerFailed
    | CircuitOpen
    | Retryable             // connection, timeout, 429 and 5xx errors of a provider
    | Permanent             // any other error
    | StreamingUnsupported

  /** isRetryableProviderError */
  predicate IsRetryable(f: Fault) {
    f == CircuitOpen || f == Retryable
  }

  datatype Reply = Ok | Fail(fault: Fault)

  /** The deltas a provider hands over and how its stream then settles by itself. */
  datatype Provider = Provider(streams: bool, deltas: seq<string>, ending: Reply)

  datatype Target = Target(admitted: bool, provider: Provider)

  datatype Which = Primary | Fallback

  datatype Routes = Routes(primary: Target, fallback: Option<Target>, modelMapped: bool)

  /** How a write of one frame ends: accepted; refused before anything was written; written but
      then the connection failed or the client stopped reading; or still waiting for the client
      when the provider's deadline ends the call. */
  datatype Write = Written | Refused | Broken | Stalled

  datatype Frame = DeltaFrame(text: string) | DoneFrame | ErrorFrame

  datatype Closing = Ended | Destroyed | JsonError(fault: Fault)

  function Shown(content: string): seq<string> {
    if content == "" then [] else [content]
  }

  /** The non-empty ones among the first `n` deltas; only these are passed on. */
  function VisibleUpTo(deltas: seq<string>, n: nat): seq<string>
    requires n <= |deltas|
  {
    if n == 0 then [] else VisibleUpTo(deltas, n - 1) + Shown(deltas[n - 1])
  }

  function Visible(deltas: seq<string>): seq<string> {
    VisibleUpTo(deltas, |deltas|)
  }

  /** The text in the first `n` frames. */
  function TextsUpTo(wire: seq<Frame>, n: nat): seq<string>
    requires n <= |wire|
  {
    if n == 0 then []
    else TextsUpTo(wire, n - 1) + (if wire[n - 1].DeltaFrame? then [wire[n - 1].text] else [])
  }

  function Texts(wire: seq<Frame>): seq<string> {
    TextsUpTo(wire, |wire|)
  }

  predicate AllDeltas(wire: seq<Frame>) {
    forall i :: 0 <= i < |wire| ==> wire[i].DeltaFrame?
  }

  /** delta* followed by at most one of done or error. */
  predicate WellShaped(wire: seq<Frame>) {
    wire == [] || AllDeltas(wire[..|wire| - 1])
  }

  lemma {:induction false} VisiblePrefix(deltas: seq<string>, n: nat)
    requires n <= |deltas|
    ensures VisibleUpTo(deltas, n) <= Visible(deltas)
    decreases |deltas| - n
  {
    if n < |deltas| {
      VisiblePrefix(deltas, n + 1);
    }
  }

  /** Clients never see an empty delta. */
  lemma {:induction false} VisibleIsNotEmpty(deltas: seq<string>, n: nat)
    requires n <= |deltas|
    ensures "" !in VisibleUpTo(deltas, n)
    ensures forall i :: 0 <= i < n && deltas[i] != "" ==> deltas[i] in VisibleUpTo(deltas, n)
  {
    if n > 0 {
      VisibleIsNotEmpty(deltas, n - 1);
    }
  }

  lemma OneMoreDelta(deltas: seq<string>, n: nat, had: seq<string>, handed: seq<string>)
    requires n < |deltas| && had == VisibleUpTo(deltas, n)
    requires handed == had || handed == had + Shown(deltas[n])
    ensures handed <= Visible(deltas)
    ensures handed == had + Shown(deltas[n]) ==> handed == VisibleUpTo(deltas, n + 1)
  {
    VisiblePrefix(deltas, n);
    VisiblePrefix(deltas, n + 1);
  }

  lemma {:induction false} SameFrontTexts(wire: seq<Frame>, other: seq<Frame>, n: nat)
    requires n <= |wire| && n <= |other| && wire[..n] == other[..n]
    ensures TextsUpTo(wire, n) == TextsUpTo(other, n)
  {
    if n > 0 {
      assert wire[..n][..n - 1] == wire[..n - 1] && other[..n][..n - 1] == other[..n - 1];
      assert wire[n - 1] == wire[..n][n - 1] == other[..n][n - 1];
      SameFrontTexts(wire, other, n - 1);
    }
  }

  lemma TextsSnoc(wire: seq<Frame>, f: Frame)
    ensures Texts(wire + [f]) == Texts(wire) + (if f.DeltaFrame? then [f.text] else [])
  {
    SameFrontTexts(wire, wire + [f], |wire|);
  }

  predicate InProgress(started: bool, emitted: bool, wire: seq<Frame>, handed: seq<string>) {
    && AllDeltas(wire) && Texts(wire) <= handed
    && (emitted <==> handed != []) && (started ==> emitted) && (wire != [] ==> started)
  }

  /** Text handed over and written, or handed over and lost. */
  lemma HandedOver(before: seq<Frame>, after: seq<Frame>, had: seq<string>, content: string,
                   started: bool, written: bool)
    requires AllDeltas(before) && Texts(before) == had && (before != [] ==> started)
    requires after == (if written then before + [DeltaFrame(content)] else before) && (written ==> started)
    ensures InProgress(started, true, after, had + [content])
    ensures written ==> Texts(after) == had + [content]
  {
    TextsSnoc(before, DeltaFrame(content));
  }

  /** How often each target was invoked. */
  datatype Calls = Calls(primary: nat, fallback: nat)

  /** Each target at most once, and only targets that exist. */
  predicate OnePass(routes: Routes, calls: Calls) {
    calls.primary <= 1 && calls.fallback <= 1 && (calls.fallback == 1 ==> routes.fallback.Some?)
  }

  /** The provider that was invoked last, the only one whose text may have been passed on. */
  function Source(routes: Routes, calls: Calls): Provider
    requires OnePass(routes, calls)
  {
    if calls.fallback == 1 then routes.fallback.value.provider else routes.primary.provider
  }

  /** The text is a prefix of what one invoked provider emitted. */
  predicate FromOneSource(routes: Routes, calls: Calls, texts: seq<string>) {
    && OnePass(routes, calls) && texts <= Visible(Source(routes, calls).deltas)
    && (texts != [] ==> calls != Calls(0, 0))
  }

  /** The text is everything that provider emitted, and its stream resolved. */
  predicate AllOfOneSource(routes: Routes, calls: Calls, texts: seq<string>) {
    && OnePass(routes, calls) && calls != Calls(0, 0)
    && Source(routes, calls).ending.Ok? && texts == Visible(Source(routes, calls).deltas)
  }

  /** The response: delta* and then at most one of done or error; its text is a prefix of what was
      handed over, which is a prefix of one provider's output; with done it is all of it. */
  predicate SingleSource(routes: Routes, calls: Calls, handed: seq<string>, wire: seq<Frame>) {
    && WellShaped(wire) && FromOneSource(routes, calls, handed) && Texts(wire) <= handed
    && (DoneFrame in wire ==> AllOfOneSource(routes, calls, Texts(wire)))
  }

  lemma EndsWithDone(routes: Routes, calls: Calls, handed: seq<string>, before: seq<Frame>)
    requires AllDeltas(before) && Texts(before) == handed
    requires FromOneSource(routes, calls, handed) && AllOfOneSource(routes, calls, handed)
    ensures SingleSource(routes, calls, handed, before + [DoneFrame])
  {
    TextsSnoc(before, DoneFrame);
    assert (before + [DoneFrame])[..|before|] == before;
  }

  lemma EndsWithRecovery(routes: Routes, calls: Calls, handed: seq<string>, before: seq<Frame>, wire: seq<Frame>)
    requires AllDeltas(before) && Texts(before) <= handed && FromOneSource(routes, calls, handed)
    requires wire == before || wire == before + [ErrorFrame]
    ensures SingleSource(routes, calls, handed, wire)
  {
    TextsSnoc(before, ErrorFrame);
    if wire != before {
      assert wire[..|wire| - 1] == before;
    }
  }

  function Invoked(calls: Calls, w: Which): Calls {
    if w.Primary? then calls.(primary := calls.primary + 1) else calls.(fallback := calls.fallback + 1)
  }

  /** The primary leaves the request to the fallback: its circuit is open, or it failed for a
      transient reason without having emitted any text. */
  predicate GivesWay(t: Target) {
    || !t.admitted
    || (t.provider.streams && Visible(t.provider.deltas) == []
        && (t.provider.ending == Fail(Retryable) || t.provider.ending == Fail(CircuitOpen)))
  }

  // --- What a client gets when nothing interferes ---------------------------------------------------

  /** How a call of this target ends by itself. */
  function Answer(t: Target): Reply {
    if !t.admitted then Fail(CircuitOpen)
    else if !t.provider.streams then Fail(StreamingUnsupported)
    else t.provider.ending
  }

  /** The text that a call of this target produces. */
  function Output(t: Target): seq<string> {
    if t.admitted && t.provider.streams then Visible(t.provider.deltas) else []
  }

  /** The target that serves the request. */
  function Serving(routes: Routes): Target {
    if GivesWay(routes.primary) && routes.fallback.Some? && routes.modelMapped
    then routes.fallback.value else routes.primary
  }

  function DeltaFrames(texts: seq<string>): seq<Frame> {
    seq(|texts|, i requires 0 <= i < |texts| => DeltaFrame(texts[i]))
  }

  /** The whole response: the serving target's text, then done if it resolved and error if it
      failed after output; a failure before output becomes a JSON error. */
  function Expected(routes: Routes): (seq<Frame>, Closing) {
    var t := Serving(routes);
    match Answer(t)
    case Ok => (DeltaFrames(Output(t)) + [DoneFrame], Ended)
    case Fail(fault) =>
      if fault == RequestAborted then (DeltaFrames(Output(t)), Destroyed)
      else if Output(t) == [] then ([], JsonError(fault))
      else (DeltaFrames(Output(t)) + [ErrorFrame], Ended)
  }

  lemma {:induction false} TextsOfDeltas(wire: seq<Frame>, n: nat)
    requires AllDeltas(wire) && n <= |wire|
    ensures |TextsUpTo(wire, n)| == n && forall i :: 0 <= i < n ==> wire[i] == DeltaFrame(TextsUpTo(wire, n)[i])
  {
    if n > 0 {
      TextsOfDeltas(wire, n - 1);
    }
  }

  lemma TextsDetermineWire(wire: seq<Frame>)
    requires AllDeltas(wire)
    ensures wire == DeltaFrames(Texts(wire))
  {
    TextsOfDeltas(wire, |wire|);
  }

  /** What the catch block does when the client is still there. */
  predicate RecoversTo(started: bool, fault: Fault, before: seq<Frame>, wire: seq<Frame>, closing: Closing) {
    if fault == RequestAborted then closing == Destroyed && wire == before
    else if !started then closing == JsonError(fault) && wire == before
    else closing == Ended && wire == before + [ErrorFrame]
  }

  /** What the try block does then: `closing` is None if it throws `fault`. */
  predicate RespondsTo(routes: Routes, started: bool, wire: seq<Frame>, closing: Option<Closing>, fault: Fault) {
    var t := Serving(routes);
    match Answer(t)
    case Ok => closing == Some(Ended) && wire == DeltaFrames(Output(t)) + [DoneFrame]
    case Fail(f) => closing == None && fault == f && wire == DeltaFrames(Output(t)) && (started <==> Output(t) != [])
  }

  lemma RespondsAsExpected(routes: Routes, started: bool, wire: seq<Frame>, closing: Option<Closing>, fault: Fault)
    requires RespondsTo(routes, started, wire, closing, fault) && closing.Some?
    ensures (wire, closing.value) == Expected(routes)
  {
  }

  lemma RecoversAsExpected(routes: Routes, started: bool, fault: Fault, before: seq<Frame>, wire: seq<Frame>, closing: Closing)
    requires RespondsTo(routes, started, before, None, fault) && RecoversTo(started, fault, before, wire, closing)
    ensures (wire, closing) == Expected(routes)
  {
  }

  class StreamRequest {
    const cancels: nat -> bool
    const writes: nat -> Write
    const drainsLate: bool       // the client reads on after the deadline of a stalled write
    var looks: nat
    var writeCount: nat
    var aborted: bool
    var started: bool
    var emitted: bool
    var needDrain: bool
    var wire: seq<Frame>
    var handed: seq<string>      // text passed to the handler's consumer, whatever became of it
    var calls: Calls
    var releases: nat

    constructor (cancels: nat -> bool, writes: nat -> Write, drainsLate: bool)
      ensures !aborted && !needDrain && Idle()
      ensures this.cancels == cancels && this.writes == writes && this.drainsLate == drainsLate
    {
      this.cancels := cancels;
      this.writes := writes;
      this.drainsLate := drainsLate;
      looks, writeCount, releases := 0, 0, 0;
      aborted, started, emitted, needDrain := false, false, false, false;
      wire, handed, calls := [], [], Calls(0, 0);
    }

    ghost predicate Idle()
      reads this
    {
      !started && !emitted && wire == [] && handed == [] && calls == Calls(0, 0) && releases == 0
    }

    /** While routing, output means that the response was started and that text was handed over. */
    ghost predicate Routing()
      reads this
    {
      InProgress(started, emitted, wire, handed)
    }

    /** Everything handed over so far has been written. */
    ghost predicate Flowing()
      reads this
    {
      Routing() && Texts(wire) == handed
    }

    /** The client neither cancels nor stops reading, now or later. */
    ghost predicate Calm()
      reads this
    {
      !aborted && !needDrain && (forall n :: !cancels(n)) && (forall n :: writes(n) == Written)
    }

    /** Look at the cancellation signal, which stays aborted once it is. */
    method SignalAborted() returns (r: bool)
      modifies this`looks, this`aborted
      ensures r == aborted && (old(aborted) ==> aborted)
      ensures old(Calm()) ==> Calm() && !r
    {
      aborted := aborted || cancels(looks);
      looks := looks + 1;
      return aborted;
    }

    /** writeSse: the frame reaches the socket unless the write is refused. */
    method WriteFrame(f: Frame) returns (w: Write)
      modifies this`looks, this`aborted, this`writeCount, this`wire, this`needDrain
      ensures wire == (if w.Refused? then old(wire) else old(wire) + [f])
      ensures old(aborted) ==> aborted && w.Refused?
      ensures old(Calm()) ==> Calm() && w.Written?
    {
      var cancelled := SignalAborted();
      if cancelled {
        return Refused;
      }
      w := writes(writeCount);
      writeCount := writeCount + 1;
      if w != Refused {
        wire := wire + [f];
      }
      if w == Stalled {
        needDrain := true;
      }
    }

    /** The handler's consumer: start the response, write a delta, cancel when that fails. */
    method OnDelta(content: string) returns (w: Write)
      modifies this`looks, this`aborted, this`writeCount, this`wire, this`needDrain, this`started, this`handed
      ensures content == "" ==> w == Written && wire == old(wire) && handed == old(handed) && started == old(started)
      ensures content != "" ==>
                && wire == (if w.Refused? then old(wire) else old(wire) + [DeltaFrame(content)])
                && handed == old(handed) + [content] && (old(started) || !w.Refused? ==> started)
      ensures w.Refused? || w.Broken? ==> aborted
      ensures old(Calm()) ==> Calm() && w.Written?
    {
      if content == "" {
        return Written;
      }
      handed := handed + [content];
      var cancelled := SignalAborted();
      if cancelled {
        return Refused;
      }
      started := true;
      w := WriteFrame(DeltaFrame(content));
      if w.Refused? || w.Broken? {
        aborted := true;
      }
    }

    /** From here on the request counts as having produced output, even if the write fails. */
    method PassOn(content: string) returns (w: Write)
      requires Flowing() && content != ""
      modifies this`looks, this`aborted, this`writeCount, this`wire, this`needDrain, this`started,
               this`handed, this`emitted
      ensures Routing() && handed == old(handed) + [content]
      ensures w.Written? || w.Stalled? ==> Flowing()
      ensures w.Refused? || w.Broken? ==> aborted
      ensures old(Calm()) ==> Calm() && w.Written?
    {
      emitted := true;
      w := OnDelta(content);
      HandedOver(old(wire), wire, old(handed), content, started, !w.Refused?);
    }

    /** The router's consumer, as the provider sees it. A stalled write never returns. */
    method Consume(content: string) returns (w: Write, r: Reply)
      requires Flowing()
      modifies this`looks, this`aborted, this`writeCount, this`wire, this`needDrain, this`started,
               this`handed, this`emitted
      ensures Routing()
      ensures handed == old(handed) || handed == old(handed) + Shown(content)
      ensures r.Ok? && !w.Stalled? ==> Flowing() && handed == old(handed) + Shown(content)
      ensures r.Fail? <==> w.Refused? || w.Broken?
      ensures r.Fail? ==> r.fault == RequestAborted && aborted
      ensures old(aborted) ==> r.Fail? && wire == old(wire) && handed == old(handed)
      ensures w.Stalled? ==> handed != []
      ensures old(Calm()) ==> Calm() && w.Written? && r.Ok?
    {
      var cancelled := SignalAborted();
      if cancelled {
        return Refused, Fail(RequestAborted);
      }
      if content == "" {
        return Written, Ok;
      }
      w := PassOn(content);
      if w.Refused? || w.Broken? {
        cancelled := SignalAborted();
        return w, Fail(if cancelled then RequestAborted else StreamConsumerFailed);
      }
      return w, Ok;
    }

    /** The provider has handed over its first `n` deltas, or had to stop before. */
    ghost predicate Emitting(deltas: seq<string>, n: nat, stop: Option<Fault>)
      requires n <= |deltas|
      reads this
    {
      if stop.None? then Flowing() && handed == VisibleUpTo(deltas, n)
      else Routing() && handed <= Visible(deltas) && (IsRetryable(stop.value) ==> handed != [])
    }

    /** The provider hands over one delta. It stops when the consumer fails, and with its own
        deadline when the consumer does not come back. */
    method Emit(deltas: seq<string>, n: nat) returns (stop: Option<Fault>)
      requires n < |deltas| && Emitting(deltas, n, None)
      modifies this`looks, this`aborted, this`writeCount, this`wire, this`needDrain, this`started,
               this`handed, this`emitted
      ensures Emitting(deltas, n + 1, stop)
      ensures old(Calm()) ==> Calm() && stop.None?
    {
      var w, c := Consume(deltas[n]);
      OneMoreDelta(deltas, n, old(handed), handed);
      if c.Fail? {
        return Some(c.fault);
      }
      return if w.Stalled? then Some(Retryable) else None;
    }

    /** The provider hands over its deltas one by one until it has to stop. */
    method EmitAll(deltas: seq<string>) returns (stop: Option<Fault>)
      requires Flowing() && handed == []
      modifies this`looks, this`aborted, this`writeCount, this`wire, this`needDrain, this`started,
               this`handed, this`emitted
      ensures Emitting(deltas, |deltas|, stop)
      ensures old(Calm()) ==> Calm() && stop.None?
    {
      ghost var calm := Calm();
      var n := 0;
      while n < |deltas|
        invariant 0 <= n <= |deltas| && Emitting(deltas, n, None)
        invariant calm ==> Calm()
      {
        stop := Emit(deltas, n);
        n := n + 1;
        if stop.Some? {
          return;
        }
      }
      return None;
    }

    /** The provider's stream: it hands over its deltas and then settles. */
    method RunProvider(p: Provider) returns (r: Reply)
      requires Flowing() && handed == []
      modifies this`looks, this`aborted, this`writeCount, this`wire, this`needDrain, this`started,
               this`handed, this`emitted
      ensures Routing() && handed <= Visible(p.deltas)
      ensures r.Ok? ==> p.ending.Ok? && Flowing() && handed == Visible(p.deltas)
      ensures r.Fail? && IsRetryable(r.fault) && handed == [] ==> p.streams && p.ending == r && Visible(p.deltas) == []
      ensures old(Calm()) ==>
                Calm() && Flowing() && r == Answer(Target(true, p)) && handed == Output(Target(true, p))
    {
      if !p.streams {
        return Fail(StreamingUnsupported);
      }
      var stop := EmitAll(p.deltas);
      VisiblePrefix(p.deltas, |p.deltas|);
      return if stop.Some? then Fail(stop.value) else p.ending;
    }

    /** `call`: the circuit decides, then the target is invoked, with cancellation checked on both
        sides of the provider. */
    method Call(w: Which, target: Target) returns (r: Reply)
      requires Flowing() && handed == []
      modifies this`looks, this`aborted, this`writeCount, this`wire, this`needDrain, this`started,
               this`handed, this`emitted, this`calls
      ensures Routing() && handed <= Visible(target.provider.deltas)
      ensures calls == old(calls) || (target.admitted && calls == Invoked(old(calls), w))
      ensures handed != [] || r.Ok? ==> calls == Invoked(old(calls), w)
      ensures r.Ok? ==> target.provider.ending.Ok? && Flowing() && handed == Visible(target.provider.deltas)
      ensures r.Fail? && IsRetryable(r.fault) && handed == [] ==> GivesWay(target)
      ensures r.Fail? && IsRetryable(r.fault) && target.admitted ==> calls == Invoked(old(calls), w)
      ensures old(Calm()) ==> Calm() && Flowing() && r == Answer(target) && handed == Output(target)
      ensures r.Ok? ==> !aborted
      ensures old(aborted) ==> !r.Ok? && calls == old(calls) && wire == old(wire) && handed == []
    {
      if !target.admitted {
        return Fail(CircuitOpen);
      }
      var cancelled := SignalAborted();
      if cancelled {
        return Fail(RequestAborted);
      }
      calls := Invoked(calls, w);
      r := RunProvider(target.provider);
      cancelled := SignalAborted();
      if cancelled {
        return Fail(RequestAborted);
      }
    }

    /** `route`: one call of the primary and, only when that failed for a transient reason before
        anything was handed over and the model is mapped, one call of the fallback. */
    method Route(routes: Routes) returns (r: Reply)
      requires Flowing() && handed == [] && calls == Calls(0, 0)
      modifies this`looks, this`aborted, this`writeCount, this`wire, this`needDrain, this`started,
               this`handed, this`emitted, this`calls
      ensures Routing() && FromOneSource(routes, calls, handed)
      ensures r.Ok? ==> Flowing() && AllOfOneSource(routes, calls, handed)
      ensures calls.fallback == 1 ==> routes.modelMapped && GivesWay(routes.primary)
      ensures r.Fail? && IsRetryable(r.fault) && handed == [] && routes.fallback.Some? && routes.modelMapped ==>
                calls.fallback == 1 || !routes.fallback.value.admitted
      ensures old(Calm()) ==>
                Calm() && Flowing() && r == Answer(Serving(routes)) && handed == Output(Serving(routes))
      ensures r.Ok? ==> !aborted
      ensures old(aborted) ==> r == Fail(RequestAborted) && calls == old(calls) && wire == old(wire)
    {
      var cancelled := SignalAborted();
      if cancelled {
        return Fail(RequestAborted);
      }
      r := Call(Primary, routes.primary);
      if r.Ok? {
        return;
      }
      cancelled := SignalAborted();
      if cancelled {
        return Fail(RequestAborted);
      }
      if emitted || !IsRetryable(r.fault) || routes.fallback.None? || !routes.modelMapped {
        return;
      }
      r := Call(Fallback, routes.fallback.value);
    }

    /** The handler's catch block. */
    method Recover(fault: Fault) returns (closing: Closing)
      requires AllDeltas(wire) && (wire != [] ==> started)
      modifies this`looks, this`aborted, this`writeCount, this`wire, this`needDrain
      ensures wire == old(wire) || wire == old(wire) + [ErrorFrame]
      ensures closing.Ended? ==> wire == old(wire) + [ErrorFrame]
      ensures closing.JsonError? ==> !started && wire == [] && closing.fault == fault
      ensures old(Calm()) ==> RecoversTo(started, fault, old(wire), wire, closing)
      ensures old(aborted) || fault == RequestAborted ==> closing == Destroyed && wire == old(wire)
      ensures old(needDrain) && !drainsLate ==> wire == old(wire)
    {
      var cancelled := SignalAborted();
      if fault == RequestAborted || cancelled {
        return Destroyed;
      }
      if !started {
        return JsonError(fault);
      }
      if drainsLate {
        needDrain := false;
      }
      if needDrain {
        return Destroyed;
      }
      var w := WriteFrame(ErrorFrame);
      return if w.Written? then Ended else Destroyed;
    }

    /** After the provider resolved: start the response if need be and send `done`. */
    method SendDone() returns (sent: Option<Closing>)
      requires Flowing()
      modifies this`looks, this`aborted, this`writeCount, this`wire, this`needDrain, this`started
      ensures sent.None? ==> wire == old(wire) && (wire != [] ==> started)
      ensures sent.Some? ==> wire == old(wire) + [DoneFrame] && !sent.value.JsonError?
      ensures old(Calm()) ==> sent == Some(Ended)
      ensures old(aborted) ==> sent.None?
    {
      var cancelled := SignalAborted();
      if cancelled {
        return None;
      }
      started := true;
      var w := WriteFrame(DoneFrame);
      if w.Refused? {
        return None;
      }
      return Some(if w.Written? then Ended else Destroyed);
    }

    /** What the handler's catch block finds when no ending was sent. */
    ghost predicate Unfinished(routes: Routes)
      reads this
    {
      && AllDeltas(wire) && Texts(wire) <= handed && FromOneSource(routes, calls, handed)
      && (wire != [] ==> started)
    }

    /** The handler's try block once a permit is held. */
    method Respond(routes: Routes) returns (closing: Option<Closing>, fault: Fault)
      requires Idle()
      modifies this`looks, this`aborted, this`writeCount, this`wire, this`needDrain, this`started,
               this`handed, this`emitted, this`calls
      ensures closing.Some? ==>
                && SingleSource(routes, calls, handed, wire) && !closing.value.JsonError?
                && DoneFrame in wire && wire[|wire| - 1] == DoneFrame
      ensures closing.None? ==> Unfinished(routes)
      ensures old(aborted) ==> closing.None? && fault == RequestAborted && calls == old(calls) && wire == []
      ensures old(Calm()) ==> RespondsTo(routes, started, wire, closing, fault) && (closing.None? ==> Calm())
      ensures calls.fallback == 1 ==> routes.modelMapped && GivesWay(routes.primary)
    {
      var cancelled := SignalAborted();
      if cancelled {
        return None, RequestAborted;
      }
      var r := Route(routes);
      TextsDetermineWire(wire);
      if r.Fail? {
        return None, r.fault;
      }
      ghost var delivered := wire;
      EndsWithDone(routes, calls, handed, delivered);
      closing := SendDone();
      fault := RequestAborted;
    }

    /** The catch block after the try block has thrown. */
    method RecoverFrom(routes: Routes, fault: Fault) returns (closing: Closing)
      requires Unfinished(routes)
      modifies this`looks, this`aborted, this`writeCount, this`wire, this`needDrain
      ensures SingleSource(routes, calls, handed, wire)
      ensures closing.JsonError? ==> wire == [] && !started
      ensures closing.Ended? ==> wire != [] && !wire[|wire| - 1].DeltaFrame?
      ensures old(Calm()) ==> RecoversTo(started, fault, old(wire), wire, closing)
      ensures old(aborted) || fault == RequestAborted ==> closing == Destroyed && wire == old(wire)
    {
      closing := Recover(fault);
      EndsWithRecovery(routes, calls, handed, old(wire), wire);
    }

    /** Try and catch blocks together. */
    method HandleAdmitted(routes: Routes) returns (closing: Closing)
      requires Idle()
      modifies this`looks, this`aborted, this`writeCount, this`wire, this`needDrain, this`started,
               this`handed, this`emitted, this`calls
      ensures SingleSource(routes, calls, handed, wire)
      ensures closing.JsonError? ==> wire == [] && !started
      ensures closing.Ended? ==> wire != [] && !wire[|wire| - 1].DeltaFrame?
      ensures old(Calm()) ==> (wire, closing) == Expected(routes)
      ensures old(aborted) ==> wire == [] && closing == Destroyed && calls == old(calls)
      ensures calls.fallback == 1 ==> routes.modelMapped && GivesWay(routes.primary)
    {
      ghost var calm := Calm();
      var sent, fault := Respond(routes);
      ghost var routed := wire;
      if sent.Some? {
        closing := sent.value;
        if calm {
          RespondsAsExpected(routes, started, wire, sent, fault);
        }
      } else {
        closing := RecoverFrom(routes, fault);
        if calm {
          RecoversAsExpected(routes, started, fault, routed, wire, closing);
        }
      }
    }

    /** The whole handler; `admission` is the concurrency limiter's answer.

        Single-source streaming: the client sees delta* and then at most one of done or error; all
        text comes from one provider, in order, and is a prefix of what that provider emitted;
        done is sent only when that provider's stream resolved with every delta delivered; a JSON
        error is sent only when no output was started; each target is invoked at most once.

        A request that is already cancelled gets nothing and invokes nobody.

        And when the client neither cancels nor stops reading, the response is exactly the expected
        one: everything the serving target emitted and its ending. */
    method Handle(admission: Reply, routes: Routes) returns (closing: Closing)
      requires Idle()
      modifies this
      ensures SingleSource(routes, calls, handed, wire)
      ensures calls.fallback == 1 ==> routes.modelMapped && GivesWay(routes.primary)
      ensures closing.JsonError? ==> wire == [] && !started
      ensures closing.Ended? ==> wire != [] && !wire[|wire| - 1].DeltaFrame?
      ensures releases == if admission.Ok? then 1 else 0
      ensures old(aborted) ==> wire == [] && closing == Destroyed && calls == old(calls)
      ensures old(Calm()) && admission.Ok? ==> (wire, closing) == Expected(routes)
      ensures old(Calm()) && admission.Fail? && admission.fault != RequestAborted ==>
                wire == [] && closing == JsonError(admission.fault)
    {
      if admission.Ok? {
        closing := HandleAdmitted(routes);
        releases := releases + 1;
      } else {
        closing := Recover(admission.fault);
        EndsWithRecovery(routes, calls, handed, [], wire);
      }
    }
  }
}
