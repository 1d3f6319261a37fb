/** RabbitMqBroker: the client's side of one consumer, proved to make exactly the steps of the
    handover system. */
module RabbitBroker {
  import opened Wrappers
  import opened WorkerHandover

  /** How the promise of a delivery's handler settles. A malformed delivery is rejected without
      calling the handler; a handler that throws leaves the delivery unacknowledged. */
  datatype Settled = Acked | Rejected | Threw

  /** What can happen while stopConsuming waits. */
  datatype Event = Delivered(tag: nat) | Ended(tag: nat, how: Settled)

  /** Deliveries of one consumer: on their way, being handled, left unacknowledged. */
  datatype Books = Books(inFlight: set<nat>, active: set<nat>, held: set<nat>)

  /** From `a` to `b` no handler started, and what arrived or failed is still unacknowledged. */
  predicate DrainsTo(a: Books, b: Books) {
    && b.active <= a.active && b.inFlight <= a.inFlight && a.held <= b.held
    && a.inFlight <= b.inFlight + b.held
    && b.held <= a.held + a.inFlight + a.active
  }

  function EndedTags(events: seq<Event>): set<nat> {
    set e | e in events && e.Ended? :: e.tag
  }

  lemma EndedSnoc(events: seq<Event>, i: nat)
    requires i < |events|
    ensures EndedTags(events[..i + 1]) == EndedTags(events[..i]) + (if events[i].Ended? then {events[i].tag} else {})
  {
    assert events[..i + 1] == events[..i] + [events[i]];
  }

  lemma EndedFront(events: seq<Event>, i: nat)
    requires i <= |events|
    ensures EndedTags(events[..i]) <= EndedTags(events)
  {
  }

  lemma DrainsToTransitive(a: Books, b: Books, c: Books)
    requires DrainsTo(a, b) && DrainsTo(b, c)
    ensures DrainsTo(a, c)
  {
  }

  class RabbitMqBroker {
    var failure: bool
    var draining: bool
    var closing: bool
    var consumerTag: Option<nat>
    var active: set<nat>        // delivery tags whose handlers run

    // What the channel knows of this consumer.
    var registered: bool
    var inFlight: set<nat>
    var held: set<nat>

    ghost predicate Valid()
      reads this
    {
      && inFlight !! active && inFlight !! held && active !! held
      && (consumerTag.Some? ==> registered)
      && (!registered ==> inFlight == {} || draining)
    }

    ghost function View(): Worker
      reads this
    {
      Worker(draining, registered, |inFlight|, |active|, |held|)
    }

    function Deliveries(): Books
      reads this
    {
      Books(inFlight, active, held)
    }

    /** channel.consume has registered the consumer; its tag is still on the way. */
    constructor ()
      ensures Valid() && View() == Worker(false, true, 0, 0, 0)
      ensures consumerTag == None && !failure && !closing
    {
      failure, draining, closing, consumerTag := false, false, false, None;
      active, inFlight, held := {}, {}, {};
      registered := true;
    }

    method ConsumeOk(tag: nat)
      requires Valid() && registered
      modifies this`consumerTag
      ensures Valid() && consumerTag == Some(tag)
    {
      consumerTag := Some(tag);
    }

    /** The consumer callback for a delivery: it starts a handler unless the worker drains. */
    method OnDelivery(tag: nat) returns (started: bool)
      requires Valid() && tag in inFlight
      modifies this`inFlight, this`active, this`held
      ensures Valid() && View() == WorkerNext(old(View()), Receive(0))
      ensures started <==> !draining
      ensures active == (if started then old(active) + {tag} else old(active))
      ensures held == (if started then old(held) else old(held) + {tag})
      ensures inFlight == old(inFlight) - {tag}
    {
      inFlight := inFlight - {tag};
      if draining {
        held := held + {tag};
        return false;
      }
      active := active + {tag};
      return true;
    }

    /** The callback without a message: the broker cancelled the consumer. */
    method OnCancelled()
      requires Valid()
      modifies this`failure
      ensures Valid() && failure == (old(failure) || !closing)
    {
      if !closing {
        failure := true;
      }
    }

    /** The promise in the active set settles; only a throwing handler records a failure. */
    method OnSettled(tag: nat, how: Settled)
      requires Valid() && tag in active
      modifies this`active, this`held, this`failure
      ensures Valid() && View() == WorkerNext(old(View()), Finish(0, !how.Threw?))
      ensures active == old(active) - {tag}
      ensures held == (if how.Threw? then old(held) + {tag} else old(held))
      ensures failure == (old(failure) || how.Threw?)
    {
      active := active - {tag};
      if how.Threw? {
        failure := true;
        held := held + {tag};
      }
    }

    /** stopConsuming up to its wait, which covers the handlers that are active now. */
    method BeginStop() returns (awaited: set<nat>)
      requires Valid()
      modifies this`draining
      ensures Valid() && View() == WorkerNext(old(View()), Drain(0))
      ensures draining && awaited == active
    {
      draining := true;
      return active;
    }

    /** stopConsuming after its wait (AwaitHandlers). The cancellation may fail; without a
        recorded failure that is thrown. */
    method FinishStop(cancelOk: bool) returns (threw: bool)
      requires Valid() && draining && active == {}
      modifies this`consumerTag, this`registered
      ensures Valid() && consumerTag == None
      ensures registered == (old(registered) && !(old(consumerTag).Some? && cancelOk))
      ensures old(consumerTag).Some? && cancelOk ==> View() == WorkerNext(old(View()), Cancel(0))
      ensures threw <==> old(consumerTag).Some? && !cancelOk && !failure
    {
      if consumerTag.None? {
        return false;
      }
      consumerTag := None;
      if cancelOk {
        registered := false;
        return false;
      }
      return !failure;
    }

    /** One event while the broker drains; events for unknown tags do not occur. */
    method ObserveWhileDraining(e: Event)
      requires Valid() && draining
      modifies this`inFlight, this`active, this`held, this`failure
      ensures Valid()
      ensures DrainsTo(old(Deliveries()), Deliveries())
      ensures active == old(active) - (if e.Ended? then {e.tag} else {})
    {
      match e {
        case Delivered(tag) =>
          if tag in inFlight {
            var started := OnDelivery(tag);
          }
        case Ended(tag, how) =>
          if tag in active {
            OnSettled(tag, how);
          }
      }
    }

    /** The wait of stopConsuming, with deliveries arriving and handlers settling in any order. It
        covers the handlers active when it began, which is enough: nothing starts meanwhile. */
    method AwaitHandlers(awaited: set<nat>, events: seq<Event>) returns (waitingFor: set<nat>)
      requires Valid() && draining && active <= awaited
      modifies this`inFlight, this`active, this`held, this`failure
      ensures Valid() && active <= awaited && waitingFor == active
      ensures active == old(active) - EndedTags(events)
      ensures DrainsTo(old(Deliveries()), Deliveries())
    {
      waitingFor := awaited * active;
      var i := 0;
      while i < |events| && waitingFor != {}
        invariant i <= |events| && Valid() && waitingFor == awaited * active && active <= awaited
        invariant active == old(active) - EndedTags(events[..i])
        invariant DrainsTo(old(Deliveries()), Deliveries())
      {
        ghost var before := Deliveries();
        ObserveWhileDraining(events[i]);
        DrainsToTransitive(old(Deliveries()), before, Deliveries());
        EndedSnoc(events, i);
        waitingFor := awaited * active;
        i := i + 1;
      }
      EndedFront(events, i);
      assert events[..|events|] == events;
    }

    /** stopConsuming up to the end of its wait. */
    method DrainHandlers(events: seq<Event>) returns (waitingFor: set<nat>)
      requires Valid()
      modifies this`draining, this`inFlight, this`active, this`held, this`failure
      ensures Valid() && draining && waitingFor == active == old(active) - EndedTags(events)
      ensures DrainsTo(old(Deliveries()), Deliveries())
    {
      var awaited := BeginStop();
      waitingFor := AwaitHandlers(awaited, events);
    }

    /** A whole stopConsuming; `waitingFor` is not empty when the events run out before the wait
        is over. No handler starts, every delivery that arrives stays unacknowledged, and the
        consumer is given up only when no handler runs. */
    method StopConsuming(events: seq<Event>, cancelOk: bool) returns (threw: bool, waitingFor: set<nat>)
      requires Valid()
      modifies this`draining, this`inFlight, this`active, this`held, this`failure, this`consumerTag, this`registered
      ensures Valid() && draining
      ensures DrainsTo(old(Deliveries()), Deliveries()) && waitingFor == active
      ensures waitingFor == old(active) - EndedTags(events)
      ensures if waitingFor == {}
              then consumerTag == None && registered == (old(registered) && !(old(consumerTag).Some? && cancelOk))
              else consumerTag == old(consumerTag) && registered == old(registered)
      ensures threw <==> waitingFor == {} && old(consumerTag).Some? && !cancelOk && !failure
    {
      waitingFor := DrainHandlers(events);
      if waitingFor != {} {
        return false, waitingFor;
      }
      threw := FinishStop(cancelOk);
    }
  }
}
