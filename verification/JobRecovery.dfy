/** The positive side of "no job is lost": from every reachable state every unfinished job can
    still be driven to an end by a dispatcher, a healthy worker and maintenance alone, without
    any help from the executions, deliveries and transactions that happened to be around. */
module JobRecovery {
  import opened JobRows
  import opened JobProtocol
  import opened JobInvariant

  /** The run never needs a handler from `existing` to claim, report or settle anything. */
  predicate Unaided(ls: seq<Label>, existing: set<nat>) {
    forall i :: 0 <= i < |ls| ==>
      (ls[i].Claim? || ls[i].Complete? || ls[i].Fail? || ls[i].Settle? ==> ls[i].h !in existing)
  }

  lemma {:induction false} Unused(keys: set<nat>) returns (k: nat)
    ensures forall n :: n in keys ==> n < k
    decreases |keys|
  {
    if keys == {} {
      k := 0;
    } else {
      var n :| n in keys;
      var rest := Unused(keys - {n});
      k := if n < rest then rest else n + 1;
      forall x | x in keys ensures x < k {
        assert x == n || x in keys - {n};
      }
    }
  }

  /** A job in this state finishes when `ls` is played. */
  predicate Finishes(s: State, ls: seq<Label>, id: JobId) {
    && IsRun(s, ls) && Unaided(ls, s.handlers.Keys)
    && id in After(s, ls).rows && Terminal(After(s, ls).rows[id])
  }

  lemma FinishesAfter(s: State, l: Label, ls: seq<Label>, id: JobId)
    requires Enabled(s, l) && Finishes(Next(s, l), ls, id)
    requires s.handlers.Keys <= Next(s, l).handlers.Keys
    requires l.Claim? || l.Complete? || l.Fail? || l.Settle? ==> l.h !in s.handlers.Keys
    ensures Finishes(s, [l] + ls, id)
  {
    StepThenRun(s, l, ls);
  }

  // --- A queued message is delivered, claimed and completed -----------------------------------

  predicate QueuedFor(s: State, id: JobId) {
    && id in s.rows && Waiting(s.rows[id]) && Unlocked(s, id)
    && Envelope(id, s.rows[id].attempts + 1) in s.ready
  }

  lemma ClaimSucceeds(s: State, id: JobId, h: nat)
    requires Inv(s) && id in s.rows && Waiting(s.rows[id]) && Unlocked(s, id)
    requires h in s.handlers && s.handlers[h].phase == Received
    requires s.handlers[h].msg == Envelope(id, s.rows[id].attempts + 1)
    ensures Enabled(s, Claim(h, s.clock))
    ensures var t := Next(s, Claim(h, s.clock));
            && h in t.handlers && t.handlers[h].phase.Executing? && t.handlers[h].msg == s.handlers[h].msg
            && id in t.rows && Running(t.rows[id], t.handlers[h].msg.attempt)
            && t.clock == s.clock && t.dispatches == s.dispatches
  {
    assert HandlerOk(s, s.handlers[h]);
    assert RowOk(s.rows[id]);
  }

  lemma ClaimAndComplete(s: State, id: JobId, h: nat)
    requires Inv(s) && id in s.rows && Waiting(s.rows[id]) && Unlocked(s, id)
    requires h in s.handlers && s.handlers[h].phase == Received
    requires s.handlers[h].msg == Envelope(id, s.rows[id].attempts + 1)
    ensures var ls := [Claim(h, s.clock)] + [Complete(h, "", s.clock)];
            IsRun(s, ls) && id in After(s, ls).rows && Terminal(After(s, ls).rows[id])
  {
    ClaimSucceeds(s, id, h);
    var t := Next(s, Claim(h, s.clock));
    var done := Complete(h, "", s.clock);
    assert Enabled(t, done);
    assert Next(t, done).rows[id].status == Completed;
    StepThenRun(t, done, []);
    assert [done] + [] == [done];
    StepThenRun(s, Claim(h, s.clock), [done]);
  }

  lemma DeliveryArrives(s: State, id: JobId, h: nat)
    requires Inv(s) && QueuedFor(s, id) && h !in s.handlers
    ensures var m := Envelope(id, s.rows[id].attempts + 1);
            && Enabled(s, Deliver(h, m))
            && var t := Next(s, Deliver(h, m));
               && Inv(t) && t.clock == s.clock && t.rows == s.rows && Unlocked(t, id)
               && h in t.handlers && t.handlers[h].phase == Received && t.handlers[h].msg == m
  {
    StepKeepsInv(s, Deliver(h, Envelope(id, s.rows[id].attempts + 1)));
  }

  lemma NewHandlerIsNoAid(h: nat, m: Envelope, now: Time, existing: set<nat>)
    requires h !in existing
    ensures Unaided([Deliver(h, m)] + ([Claim(h, now)] + [Complete(h, "", now)]), existing)
  {
  }

  lemma DeliveredFinishes(s: State, id: JobId) returns (ls: seq<Label>)
    requires Inv(s) && QueuedFor(s, id)
    ensures Finishes(s, ls, id)
  {
    var h := Unused(s.handlers.Keys);
    var m := Envelope(id, s.rows[id].attempts + 1);
    DeliveryArrives(s, id, h);
    ClaimAndComplete(Next(s, Deliver(h, m)), id, h);
    var rest := [Claim(h, s.clock)] + [Complete(h, "", s.clock)];
    StepThenRun(s, Deliver(h, m), rest);
    NewHandlerIsNoAid(h, m, s.clock, s.handlers.Keys);
    ls := [Deliver(h, m)] + rest;
  }

  // --- A pending row is dispatched ----------------------------------------------------------------

  predicate Holds(s: State, tx: nat, id: JobId, stage: Stage) {
    && id in s.rows && tx in s.dispatches
    && s.dispatches[tx] == Dispatch(Envelope(id, s.rows[id].attempts + 1), stage)
  }

  lemma TransactionSteps(s: State, tx: nat, id: JobId)
    ensures Holds(s, tx, id, Locked) ==>
              && Enabled(s, Send(tx)) && Holds(Next(s, Send(tx)), tx, id, Sent)
              && Next(s, Send(tx)).handlers == s.handlers
    ensures Holds(s, tx, id, Sent) ==>
              && Enabled(s, Store(tx)) && Holds(Next(s, Store(tx)), tx, id, Stored)
              && Next(s, Store(tx)).handlers == s.handlers
  {
  }

  /** After the commit the row waits, unlocked, and a copy of its message is around. */
  lemma CommitReleases(s: State, tx: nat, id: JobId)
    requires Inv(s) && Holds(s, tx, id, Stored)
    ensures Enabled(s, Commit(tx))
    ensures var t := Next(s, Commit(tx));
            && t.handlers == s.handlers && id in t.rows && Waiting(t.rows[id]) && Unlocked(t, id)
            && Covered(t, Envelope(id, t.rows[id].attempts + 1)) && Inv(t)
  {
    StepKeepsInv(s, Commit(tx));
    assert DispatchOk(s, s.dispatches[tx]);
    CoveredUnlessSettled(s, Commit(tx), s.dispatches[tx].msg);
  }

  lemma CommittedFinishes(s: State, id: JobId, tx: nat) returns (ls: seq<Label>)
    requires Inv(s) && Holds(s, tx, id, Stored)
    ensures Enabled(s, Commit(tx)) && Next(s, Commit(tx)).handlers == s.handlers
    ensures Finishes(Next(s, Commit(tx)), ls, id)
  {
    CommitReleases(s, tx, id);
    ls := CoveredFinishes(Next(s, Commit(tx)), id);
  }

  lemma CommitFinishes(s: State, id: JobId, tx: nat) returns (ls: seq<Label>)
    requires Inv(s) && Holds(s, tx, id, Stored)
    ensures Finishes(s, ls, id)
  {
    var rest := CommittedFinishes(s, id, tx);
    FinishesAfter(s, Commit(tx), rest, id);
    ls := [Commit(tx)] + rest;
  }

  lemma StoreFinishes(s: State, id: JobId, tx: nat) returns (ls: seq<Label>)
    requires Inv(s) && Holds(s, tx, id, Sent)
    ensures Finishes(s, ls, id)
  {
    TransactionSteps(s, tx, id);
    StepKeepsInv(s, Store(tx));
    var rest := CommitFinishes(Next(s, Store(tx)), id, tx);
    FinishesAfter(s, Store(tx), rest, id);
    ls := [Store(tx)] + rest;
  }

  lemma SendFinishes(s: State, id: JobId, tx: nat) returns (ls: seq<Label>)
    requires Inv(s) && Holds(s, tx, id, Locked)
    ensures Finishes(s, ls, id)
  {
    TransactionSteps(s, tx, id);
    StepKeepsInv(s, Send(tx));
    var rest := StoreFinishes(Next(s, Send(tx)), id, tx);
    FinishesAfter(s, Send(tx), rest, id);
    ls := [Send(tx)] + rest;
  }

  lemma DueFinishes(s: State, id: JobId) returns (ls: seq<Label>)
    requires Inv(s) && id in s.rows && Unlocked(s, id) && Due(s.rows[id], s.clock)
    ensures Finishes(s, ls, id)
  {
    var tx := Unused(s.dispatches.Keys);
    var lock := LockDue(tx, id, s.clock);
    assert Enabled(s, lock);
    StepKeepsInv(s, lock);
    var rest := SendFinishes(Next(s, lock), id, tx);
    FinishesAfter(s, lock, rest, id);
    ls := [lock] + rest;
  }

  lemma PendingFinishes(s: State, id: JobId) returns (ls: seq<Label>)
    requires Inv(s) && id in s.rows && Waiting(s.rows[id]) && Unlocked(s, id) && s.rows[id].dispatchPending
    ensures Finishes(s, ls, id)
  {
    var tick := Tick(Max(s.clock, s.rows[id].availableAt));
    StepKeepsInv(s, tick);
    var rest := DueFinishes(Next(s, tick), id);
    FinishesAfter(s, tick, rest, id);
    ls := [tick] + rest;
  }

  // --- An unacknowledged message is requeued --------------------------------------------------------

  lemma RequeuedFinishes(s: State, id: JobId, h: nat) returns (ls: seq<Label>)
    requires Inv(s) && id in s.rows && Waiting(s.rows[id]) && Unlocked(s, id)
    requires h in s.handlers && s.handlers[h].attached && s.handlers[h].msg == Envelope(id, s.rows[id].attempts + 1)
    ensures Enabled(s, Requeue(h)) && Next(s, Requeue(h)).handlers.Keys == s.handlers.Keys
    ensures Finishes(Next(s, Requeue(h)), ls, id)
  {
    StepKeepsInv(s, Requeue(h));
    ls := DeliveredFinishes(Next(s, Requeue(h)), id);
  }

  lemma CoveredFinishes(s: State, id: JobId) returns (ls: seq<Label>)
    requires Inv(s) && id in s.rows && Waiting(s.rows[id]) && Unlocked(s, id)
    requires Covered(s, Envelope(id, s.rows[id].attempts + 1))
    ensures Finishes(s, ls, id)
  {
    var m := Envelope(id, s.rows[id].attempts + 1);
    if m in s.ready {
      ls := DeliveredFinishes(s, id);
    } else {
      var h :| h in s.handlers && s.handlers[h].attached && s.handlers[h].msg == m;
      var rest := RequeuedFinishes(s, id, h);
      FinishesAfter(s, Requeue(h), rest, id);
      ls := [Requeue(h)] + rest;
    }
  }

  lemma WaitingFinishes(s: State, id: JobId) returns (ls: seq<Label>)
    requires Inv(s) && id in s.rows && Waiting(s.rows[id]) && Unlocked(s, id)
    ensures Finishes(s, ls, id)
  {
    if s.rows[id].dispatchPending {
      ls := PendingFinishes(s, id);
    } else {
      assert Safe(s, id);
      ls := CoveredFinishes(s, id);
    }
  }

  // --- An abandoned attempt is reclaimed --------------------------------------------------------------

  lemma ExpiredFinishes(s: State, id: JobId) returns (ls: seq<Label>)
    requires Inv(s) && id in s.rows && LeaseExpired(s.rows[id], s.clock) && Unlocked(s, id)
    ensures Finishes(s, ls, id)
  {
    var reclaim := Expire(id, s.clock);
    var t := Next(s, reclaim);
    StepKeepsInv(s, reclaim);
    var rest: seq<Label> := [];
    if Waiting(t.rows[id]) {
      rest := WaitingFinishes(t, id);
    }
    FinishesAfter(s, reclaim, rest, id);
    ls := [reclaim] + rest;
  }

  lemma ActiveFinishes(s: State, id: JobId) returns (ls: seq<Label>)
    requires Inv(s) && id in s.rows && s.rows[id].status == Active && Unlocked(s, id)
    ensures Finishes(s, ls, id)
  {
    assert RowOk(s.rows[id]);
    var tick := Tick(Max(s.clock, s.rows[id].leaseUntil.value + 1));
    StepKeepsInv(s, tick);
    var rest := ExpiredFinishes(Next(s, tick), id);
    FinishesAfter(s, tick, rest, id);
    ls := [tick] + rest;
  }

  lemma UnlockedFinishes(s: State, id: JobId) returns (ls: seq<Label>)
    requires Inv(s) && id in s.rows && Unlocked(s, id)
    ensures Finishes(s, ls, id)
  {
    if Terminal(s.rows[id]) {
      ls := [];
    } else if s.rows[id].status == Active {
      ls := ActiveFinishes(s, id);
    } else {
      ls := WaitingFinishes(s, id);
    }
  }

  /** From every reachable state every stored job has a continuation that finishes it, in which
      no handler that exists in that state claims, reports or acknowledges anything. */
  lemma EveryJobCanStillFinish(leaseMs: nat, clock: Time, before: seq<Label>, id: JobId) returns (ls: seq<Label>)
    requires IsRun(Init(leaseMs, clock), before)
    requires id in After(Init(leaseMs, clock), before).rows
    ensures var s := After(Init(leaseMs, clock), before);
            && IsRun(s, ls) && Unaided(ls, s.handlers.Keys)
            && id in After(s, ls).rows && Terminal(After(s, ls).rows[id])
  {
    RunKeepsInv(Init(leaseMs, clock), before);
    var s := After(Init(leaseMs, clock), before);
    if Unlocked(s, id) {
      ls := UnlockedFinishes(s, id);
    } else {
      var tx :| tx in s.dispatches && s.dispatches[tx].msg.id == id;
      var t := Next(s, Rollback(tx));
      StepKeepsInv(s, Rollback(tx));
      var rest := UnlockedFinishes(t, id);
      FinishesAfter(s, Rollback(tx), rest, id);
      ls := [Rollback(tx)] + rest;
    }
  }
}
