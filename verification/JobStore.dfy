/** PostgresJobStore: the job table and the methods that update it, one SQL statement after
    the other. Below the class each method is related to the steps of the protocol. */
module JobStore {
  import opened Wrappers
  import opened JobRows
  import opened JobProtocol
  import opened JobInvariant
  import opened JobRuns
  import Json
  import CanonicalJson

  // --- Maintenance on the whole table -----------------------------------------------------------

  /** The first statement of `maintain`: every expired lease at once. */
  function Reclaimed(rows: Table, now: Time): Table {
    map id | id in rows :: if LeaseExpired(rows[id], now) then AfterExpiry(rows[id], now) else rows[id]
  }

  /** The second statement of `maintain`. */
  function Retained(rows: Table, now: Time): Table {
    map id | id in rows && !PastRetention(rows[id], now) :: rows[id]
  }

  // --- The store -------------------------------------------------------------------------------

  datatype Submission = Submission(owner: string, key: string, data: Json.Json, requestId: string)
  datatype Receipt = Receipt(id: JobId, requestId: string)
  datatype Enqueued = Accepted(receipt: Receipt) | IdempotencyConflict | Disappeared
  datatype ProcessingJob = ProcessingJob(id: JobId, owner: string, requestId: string, attempt: nat, queueWaitMs: int)
  datatype Dispatched = NothingDue | Published(m: Envelope) | PublishFailed(m: Envelope)

  /** The dispatcher's order: by due time, then by id. */
  predicate Earlier(rows: Table, a: JobId, b: JobId)
    requires a in rows && b in rows
  {
    rows[a].availableAt < rows[b].availableAt || (rows[a].availableAt == rows[b].availableAt && a < b)
  }

  /** How the processor ended. An unexpected exception counts as a permanent failure. */
  datatype Processed = Answer(response: string) | Fault(failure: Failure) | Crashed

  function AsFailure(p: Processed): Failure
    requires !p.Answer?
  {
    if p.Fault? then p.failure else Failure("JOB_FAILED", false, 0)
  }

  /** The table after the outcome of the message's attempt was reported. */
  function Reported(rows: Table, m: Envelope, p: Processed, now: Time): Table
    requires m.attempt >= 1
  {
    if p.Answer? then CompletedTable(rows, m, p.response, now) else FailedTable(rows, m, AsFailure(p), now)
  }

  /** The answer to a submission that finds its key taken: the receipt of the job with that key if
      the payload is the same, a conflict if not, unless that job is gone by now. */
  ghost predicate Answers(rows: Table, owner: string, keyHash: string, payloadHash: string, r: Enqueued) {
    && (r.Disappeared? <==> !KeyTaken(rows, owner, keyHash))
    && forall e :: e in rows && HasKey(rows[e], owner, keyHash) ==>
         r == if rows[e].payloadHash == payloadHash then Accepted(Receipt(e, rows[e].requestId))
              else IdempotencyConflict
  }

  /** Only this row may differ. */
  predicate SameExcept(rows: Table, rows': Table, id: JobId) {
    rows'.Keys == rows.Keys && forall i :: i in rows && i != id ==> rows'[i] == rows[i]
  }

  /** No report of this attempt, success or failure, changes the table any more. */
  ghost predicate ReportsAreVoid(rows: Table, m: Envelope) {
    && (forall response, now :: CompletedTable(rows, m, response, now) == rows)
    && (m.attempt >= 1 ==> forall f, now :: FailedTable(rows, m, f, now) == rows)
  }

  class PostgresJobStore {
    const sha: string -> string
    const maxAttempts: nat
    const backoffMs: nat
    const leaseMs: nat
    var rows: Table
    var locked: set<JobId>

    constructor (sha: string -> string, maxAttempts: nat, backoffMs: nat, leaseMs: nat)
      ensures rows == map[] && locked == {} && UniqueKeys(rows)
      ensures this.sha == sha && this.maxAttempts == maxAttempts
      ensures this.backoffMs == backoffMs && this.leaseMs == leaseMs
    {
      this.sha := sha;
      this.maxAttempts := maxAttempts;
      this.backoffMs := backoffMs;
      this.leaseMs := leaseMs;
      rows := map[];
      locked := {};
    }

    method FindByKey(owner: string, keyHash: string) returns (found: Option<JobId>)
      ensures found.Some? <==> KeyTaken(rows, owner, keyHash)
      ensures found.Some? ==> found.value in rows && HasKey(rows[found.value], owner, keyHash)
    {
      var todo := rows.Keys;
      while todo != {}
        invariant todo <= rows.Keys
        invariant forall id :: id in rows && id !in todo ==> !HasKey(rows[id], owner, keyHash)
        decreases |todo|
      {
        var id :| id in todo;
        if HasKey(rows[id], owner, keyHash) {
          return Some(id);
        }
        todo := todo - {id};
      }
      return None;
    }

    /** Insert unless the key is taken; when it is, read the row that has it. The two are separate
        statements: `between` is whatever the others do to the table from one to the other. */
    method Enqueue(sub: Submission, id: JobId, now: Time, between: Table -> Table) returns (r: Enqueued)
      requires UniqueKeys(rows) && UniqueKeys(between(rows)) && id !in rows
      modifies this`rows
      ensures UniqueKeys(rows)
      ensures var keyHash := CanonicalJson.Hash(sha, Json.Str(sub.key));
              var payloadHash := CanonicalJson.Hash(sha, sub.data);
              if !KeyTaken(old(rows), sub.owner, keyHash) then
                && r == Accepted(Receipt(id, sub.requestId))
                && rows == old(rows)[id := NewRow(sub.owner, keyHash, payloadHash, sub.requestId,
                                                  maxAttempts, backoffMs, now)]
                && HasKey(rows[id], sub.owner, keyHash) && rows[id].payloadHash == payloadHash
                && rows[id].requestId == sub.requestId && rows[id].maxAttempts == maxAttempts
                && rows[id].backoffMs == backoffMs && rows[id].attempts == 0 && rows[id].availableAt == now
                && Due(rows[id], now) && rows[id].status == Queued && rows[id].errorCode == None
              else
                && rows == between(old(rows))
                && Answers(rows, sub.owner, keyHash, payloadHash, r)
    {
      var keyHash := CanonicalJson.Hash(sha, Json.Str(sub.key));
      var payloadHash := CanonicalJson.Hash(sha, sub.data);
      var conflicting := FindByKey(sub.owner, keyHash);
      if conflicting.None? {
        rows := rows[id := NewRow(sub.owner, keyHash, payloadHash, sub.requestId, maxAttempts, backoffMs, now)];
        return Accepted(Receipt(id, sub.requestId));
      }
      rows := between(rows);
      var existing := FindByKey(sub.owner, keyHash);
      if existing.None? {
        return Disappeared;
      }
      var row := rows[existing.value];
      assert forall e :: e in rows && HasKey(rows[e], sub.owner, keyHash) ==> SameKey(rows[e], row);
      if row.payloadHash != payloadHash {
        return IdempotencyConflict;
      }
      return Accepted(Receipt(existing.value, row.requestId));
    }

    /** Lock the first row that is due, passing over rows that other dispatchers hold. */
    method LockEarliestDue(now: Time) returns (m: Option<Envelope>)
      modifies this`locked
      ensures m.None? ==> locked == old(locked)
      ensures m.None? ==> forall id :: id in rows && Due(rows[id], now) ==> id in locked
      ensures m.Some? ==>
                && m.value.id in rows && Due(rows[m.value.id], now) && m.value.id !in old(locked)
                && m.value.attempt == rows[m.value.id].attempts + 1
                && locked == old(locked) + {m.value.id}
                && forall id :: id in rows && Due(rows[id], now) && id !in old(locked) ==>
                     id == m.value.id || Earlier(rows, m.value.id, id)
    {
      var best: Option<JobId> := None;
      var todo := rows.Keys;
      while todo != {}
        invariant todo <= rows.Keys
        invariant best.Some? ==> best.value in rows && Due(rows[best.value], now) && best.value !in locked
        invariant best.None? ==> forall id :: id in rows && id !in todo ==> !(Due(rows[id], now) && id !in locked)
        invariant best.Some? ==>
                    forall id :: id in rows && id !in todo && Due(rows[id], now) && id !in locked ==>
                      id == best.value || Earlier(rows, best.value, id)
        decreases |todo|
      {
        var id :| id in todo;
        if Due(rows[id], now) && id !in locked && (best.None? || Earlier(rows, id, best.value)) {
          best := Some(id);
        }
        todo := todo - {id};
      }
      if best.None? {
        return None;
      }
      locked := locked + {best.value};
      return Some(Envelope(best.value, rows[best.value].attempts + 1));
    }

    /** One pass of the dispatcher: the row stays locked until the broker confirms. Without a
        confirmation the transaction rolls back and the row stays pending. */
    method DispatchOne(now: Time, confirmed: bool) returns (r: Dispatched)
      modifies this`rows, this`locked
      ensures locked == old(locked)
      ensures r.NothingDue? <==> forall id :: id in old(rows) && Due(old(rows)[id], now) ==> id in locked
      ensures !r.NothingDue? ==>
                && r.m.id in old(rows) && r.m.id !in locked && Due(old(rows)[r.m.id], now)
                && r.m.attempt == old(rows)[r.m.id].attempts + 1
                && forall id :: id in old(rows) && Due(old(rows)[id], now) && id !in locked ==>
                     id == r.m.id || Earlier(old(rows), r.m.id, id)
      ensures r.PublishFailed? ==> !confirmed
      ensures !r.Published? ==> rows == old(rows)
      ensures r.Published? ==> confirmed && rows == old(rows)[r.m.id := old(rows)[r.m.id].(dispatchPending := false)]
    {
      var next := LockEarliestDue(now);
      if next.None? {
        return NothingDue;
      }
      var id := next.value.id;
      if confirmed {
        rows := rows[id := rows[id].(dispatchPending := false)];
      }
      locked := locked - {id};
      return if confirmed then Published(next.value) else PublishFailed(next.value);
    }

    /** Take the attempt if the row still waits for it; otherwise there is no job to return. */
    method ClaimAttempt(m: Envelope, now: Time) returns (job: Option<ProcessingJob>)
      modifies this`rows
      ensures rows == ClaimedTable(old(rows), m, now, leaseMs)
      ensures job.Some? <==> m.id in old(rows) && Claimable(old(rows)[m.id], m.attempt, now)
      ensures SameExcept(old(rows), rows, m.id)
      ensures job.Some? ==>
                && job.value == ProcessingJob(m.id, rows[m.id].owner, rows[m.id].requestId, m.attempt,
                                              now - old(rows)[m.id].availableAt)
                && job.value.queueWaitMs >= 0
    {
      if m.id !in rows || !Claimable(rows[m.id], m.attempt, now) {
        return None;
      }
      var row := AfterClaim(rows[m.id], m.attempt, now, leaseMs);
      rows := rows[m.id := row];
      return Some(ProcessingJob(m.id, row.owner, row.requestId, row.attempts, Max(0, now - row.availableAt)));
    }

    /** The first report of an attempt counts: it alone touches the row, and after it no report of
        that attempt, success or failure, changes anything. */
    method CompleteAttempt(m: Envelope, response: string, now: Time)
      modifies this`rows
      ensures rows == CompletedTable(old(rows), m, response, now)
      ensures SameExcept(old(rows), rows, m.id) && ReportsAreVoid(rows, m)
      ensures if ActiveAs(old(rows), m)
              then rows[m.id].status == Completed && rows[m.id].response == Some(response)
                   && rows[m.id].attempts == m.attempt && rows[m.id].leaseUntil == None
                   && rows[m.id].finishedAt == Some(now) && rows[m.id].errorCode == None
              else rows == old(rows)
    {
      if m.id in rows && Running(rows[m.id], m.attempt) {
        rows := rows[m.id := AfterComplete(rows[m.id], response, now)];
      }
    }

    method FailAttempt(m: Envelope, f: Failure, now: Time) returns (status: Option<Status>)
      requires m.attempt >= 1
      modifies this`rows
      ensures rows == FailedTable(old(rows), m, f, now)
      ensures SameExcept(old(rows), rows, m.id) && ReportsAreVoid(rows, m)
      ensures status.Some? <==> ActiveAs(old(rows), m)
      ensures status.Some? ==>
                && status.value == rows[m.id].status
                && status.value == (if f.retryable && m.attempt < old(rows)[m.id].maxAttempts then Retrying else Failed)
                && rows[m.id].errorCode == Some(f.code) && rows[m.id].attempts == m.attempt
                && rows[m.id].leaseUntil == None && rows[m.id].dispatchPending == (status.value == Retrying)
                && rows[m.id].finishedAt == (if status.value == Failed then Some(now) else None)
      ensures status == Some(Retrying) && rows[m.id].backoffMs >= 1 ==>
                rows[m.id].availableAt == now + Max(f.retryAfterMs, DoublingDelay(rows[m.id].backoffMs, m.attempt))
    {
      if m.id !in rows || !Running(rows[m.id], m.attempt) {
        return None;
      }
      if rows[m.id].backoffMs >= 1 {
        BackoffIsCappedDoubling(rows[m.id].backoffMs, m.attempt);
      }
      var row := AfterFail(rows[m.id], f, now);
      rows := rows[m.id := row];
      return Some(row.status);
    }

    method ReclaimExpired(now: Time)
      modifies this`rows
      ensures rows == Reclaimed(old(rows), now)
    {
      var todo := rows.Keys;
      while todo != {}
        invariant todo <= rows.Keys == old(rows).Keys
        invariant forall id :: id in todo ==> rows[id] == old(rows)[id]
        invariant forall id :: id in rows && id !in todo ==> rows[id] == Reclaimed(old(rows), now)[id]
        decreases |todo|
      {
        var id :| id in todo;
        if LeaseExpired(rows[id], now) {
          rows := rows[id := AfterExpiry(rows[id], now)];
        }
        todo := todo - {id};
      }
    }

    /** A lost lease costs the attempt and not the job: while attempts are left the row is queued
        again at once. Rows that finished more than a day ago go; nothing else changes. */
    method Maintain(now: Time, later: Time)
      modifies this`rows
      ensures rows == Retained(Reclaimed(old(rows), now), later)
      ensures forall id :: id in rows ==> id in old(rows)
      ensures forall id :: id in rows && LeaseExpired(old(rows)[id], now) ==>
                && rows[id].attempts == old(rows)[id].attempts && rows[id].leaseUntil == None
                && rows[id].errorCode == Some("JOB_FAILED") && rows[id].availableAt == now
                && (if rows[id].attempts < rows[id].maxAttempts
                    then rows[id].status == Queued && rows[id].dispatchPending && rows[id].finishedAt == None
                    else rows[id].status == Failed && !rows[id].dispatchPending && rows[id].finishedAt == Some(now))
      ensures forall id :: id in old(rows) && !LeaseExpired(old(rows)[id], now) ==>
                if old(rows)[id].finishedAt.Some? && later - old(rows)[id].finishedAt.value > RETENTION_MS
                then id !in rows else id in rows && rows[id] == old(rows)[id]
    {
      ReclaimExpired(now);
      rows := Retained(rows, later);
    }
  }

  // --- The protocol's steps are these statements ------------------------------------------------

  /** An accepted submission is the protocol's Enqueue step. */
  lemma EnqueueIsAStep(s: State, id: JobId, row: Row)
    requires id !in s.issued && !KeyTaken(s.rows, row.owner, row.keyHash) && row.availableAt <= s.clock
    requires 1 <= row.maxAttempts <= MAX_INT32 && row.backoffMs >= 1
    requires row == NewRow(row.owner, row.keyHash, row.payloadHash, row.requestId,
                           row.maxAttempts, row.backoffMs, row.availableAt)
    ensures Enabled(s, Label.Enqueue(id, row)) && Next(s, Label.Enqueue(id, row)).rows == s.rows[id := row]
  {
  }

  /** What a dispatcher does with a row it has locked, by how far it gets. */
  function DispatchSteps(tx: nat, reached: Stage, confirmed: bool): seq<Label> {
    var last := [if confirmed then Commit(tx) else Rollback(tx)];
    match reached
    case Locked => last
    case Sent => [Send(tx)] + last
    case Stored => [Send(tx)] + ([Store(tx)] + last)
  }

  /** The run `ls` ends the transaction: its lock is gone, its flag is cleared if it committed,
      and the queue has gained `stored`. */
  predicate EndsDispatch(s: State, tx: nat, ls: seq<Label>, confirmed: bool, stored: multiset<Envelope>)
    requires tx in s.dispatches && s.dispatches[tx].msg.id in s.rows
  {
    var id := s.dispatches[tx].msg.id;
    && IsRun(s, ls) && After(s, ls).dispatches == s.dispatches - {tx} && After(s, ls).handlers == s.handlers
    && After(s, ls).ready == s.ready + stored
    && After(s, ls).rows == if confirmed then s.rows[id := s.rows[id].(dispatchPending := false)] else s.rows
  }

  lemma LastStep(s: State, tx: nat, confirmed: bool)
    requires tx in s.dispatches && s.dispatches[tx].msg.id in s.rows && (confirmed ==> s.dispatches[tx].stage == Stored)
    ensures EndsDispatch(s, tx, [if confirmed then Commit(tx) else Rollback(tx)], confirmed, multiset{})
  {
    var last := if confirmed then Commit(tx) else Rollback(tx);
    StepThenRun(s, last, []);
    assert [last] + [] == [last];
  }

  lemma FromSent(s: State, tx: nat, confirmed: bool)
    requires tx in s.dispatches && s.dispatches[tx].msg.id in s.rows && s.dispatches[tx].stage == Sent
    ensures EndsDispatch(s, tx, [Store(tx)] + [if confirmed then Commit(tx) else Rollback(tx)], confirmed,
                         multiset{s.dispatches[tx].msg})
  {
    LastStep(Next(s, Store(tx)), tx, confirmed);
    StepThenRun(s, Store(tx), [if confirmed then Commit(tx) else Rollback(tx)]);
  }

  lemma FromLocked(s: State, tx: nat, reached: Stage, confirmed: bool)
    requires tx in s.dispatches && s.dispatches[tx].msg.id in s.rows && s.dispatches[tx].stage == Locked
    requires confirmed ==> reached == Stored
    ensures EndsDispatch(s, tx, DispatchSteps(tx, reached, confirmed), confirmed,
                         if reached == Stored then multiset{s.dispatches[tx].msg} else multiset{})
  {
    var last := [if confirmed then Commit(tx) else Rollback(tx)];
    if reached == Locked {
      LastStep(s, tx, confirmed);
    } else if reached == Sent {
      LastStep(Next(s, Send(tx)), tx, confirmed);
      StepThenRun(s, Send(tx), last);
    } else {
      FromSent(Next(s, Send(tx)), tx, confirmed);
      StepThenRun(s, Send(tx), [Store(tx)] + last);
    }
  }

  lemma LockTakesTheRow(s: State, tx: nat, id: JobId, now: Time)
    requires Enabled(s, LockDue(tx, id, now))
    ensures var t := Next(s, LockDue(tx, id, now));
            && tx in t.dispatches && t.dispatches[tx] == Dispatch(Envelope(id, s.rows[id].attempts + 1), Locked)
            && t.rows == s.rows && t.handlers == s.handlers && t.ready == s.ready
            && t.dispatches - {tx} == s.dispatches && id in s.rows
  {
  }

  /** DispatchOne is a run of the protocol: lock, send, store, and commit, which clears the flag
      of the row that was locked; or, wherever it stops, a rollback, which leaves the table. The
      lock is gone afterwards. */
  lemma DispatchIsARun(s: State, tx: nat, id: JobId, now: Time, reached: Stage, confirmed: bool)
    requires Enabled(s, LockDue(tx, id, now)) && (confirmed ==> reached == Stored)
    ensures var ls := [LockDue(tx, id, now)] + DispatchSteps(tx, reached, confirmed);
            && IsRun(s, ls) && After(s, ls).dispatches == s.dispatches && After(s, ls).handlers == s.handlers
            && After(s, ls).rows == (if confirmed then s.rows[id := s.rows[id].(dispatchPending := false)] else s.rows)
            && After(s, ls).ready
                 == s.ready + (if reached == Stored then multiset{Envelope(id, s.rows[id].attempts + 1)} else multiset{})
  {
    LockTakesTheRow(s, tx, id, now);
    FromLocked(Next(s, LockDue(tx, id, now)), tx, reached, confirmed);
    StepThenRun(s, LockDue(tx, id, now), DispatchSteps(tx, reached, confirmed));
  }

  /** Expired rows are never locked: a lock is held only on rows that wait. */
  lemma ExpiredIsUnlocked(s: State, id: JobId, now: Time)
    requires Inv(s) && id in s.rows && (LeaseExpired(s.rows[id], now) || PastRetention(s.rows[id], now))
    ensures Unlocked(s, id)
  {
    assert RowOk(s.rows[id]);
    forall tx | tx in s.dispatches ensures s.dispatches[tx].msg.id != id {
      assert DispatchOk(s, s.dispatches[tx]);
    }
  }

  ghost function ExpiredIds(rows: Table, now: Time): set<JobId> {
    set id | id in rows && LeaseExpired(rows[id], now)
  }

  ghost function RetiredIds(rows: Table, now: Time): set<JobId> {
    set id | id in rows && PastRetention(rows[id], now)
  }

  lemma ReclaimOne(rows: Table, now: Time, id: JobId)
    requires id in ExpiredIds(rows, now)
    ensures var after := rows[id := AfterExpiry(rows[id], now)];
            ExpiredIds(after, now) == ExpiredIds(rows, now) - {id} && Reclaimed(after, now) == Reclaimed(rows, now)
  {
  }

  lemma RetireOne(rows: Table, now: Time, id: JobId)
    requires id in RetiredIds(rows, now)
    ensures RetiredIds(rows - {id}, now) == RetiredIds(rows, now) - {id}
    ensures Retained(rows - {id}, now) == Retained(rows, now)
  {
  }

  lemma CanReclaim(s: State, now: Time, id: JobId)
    requires Inv(s) && now <= s.clock && id in ExpiredIds(s.rows, now)
    ensures Enabled(s, Expire(id, now)) && Inv(Next(s, Expire(id, now))) && Next(s, Expire(id, now)).clock == s.clock
    ensures Next(s, Expire(id, now)).rows == s.rows[id := AfterExpiry(s.rows[id], now)]
  {
    ExpiredIsUnlocked(s, id, now);
    StepKeepsInv(s, Expire(id, now));
  }

  lemma CanRetire(s: State, now: Time, id: JobId)
    requires Inv(s) && now <= s.clock && id in RetiredIds(s.rows, now)
    ensures Enabled(s, Delete(id, now)) && Inv(Next(s, Delete(id, now))) && Next(s, Delete(id, now)).clock == s.clock
    ensures Next(s, Delete(id, now)).rows == s.rows - {id}
  {
    ExpiredIsUnlocked(s, id, now);
    StepKeepsInv(s, Delete(id, now));
  }

  lemma NothingToMaintain(rows: Table, now: Time)
    ensures ExpiredIds(rows, now) == {} ==> Reclaimed(rows, now) == rows
    ensures RetiredIds(rows, now) == {} ==> Retained(rows, now) == rows
  {
    assert forall id :: id in rows && LeaseExpired(rows[id], now) ==> id in ExpiredIds(rows, now);
    assert forall id :: id in rows && PastRetention(rows[id], now) ==> id in RetiredIds(rows, now);
  }

  lemma MaintenanceStep(s: State, l: Label, ls: seq<Label>, rows: Table)
    requires Enabled(s, l) && (l.Expire? || l.Delete?)
    requires IsRun(Next(s, l), ls) && After(Next(s, l), ls) == Next(s, l).(rows := rows)
    ensures IsRun(s, [l] + ls) && After(s, [l] + ls) == s.(rows := rows)
  {
    assert ([l] + ls)[1..] == ls;
  }

  /** Reclaiming all expired leases in one statement is a run of single-row steps. */
  lemma {:induction false} ReclaimIsARun(s: State, now: Time) returns (ls: seq<Label>)
    requires Inv(s) && now <= s.clock
    ensures IsRun(s, ls) && After(s, ls) == s.(rows := Reclaimed(s.rows, now))
    ensures forall i :: 0 <= i < |ls| ==> ls[i].Expire?
    decreases |ExpiredIds(s.rows, now)|
  {
    if ExpiredIds(s.rows, now) == {} {
      NothingToMaintain(s.rows, now);
      ls := [];
    } else {
      var id :| id in ExpiredIds(s.rows, now);
      var l := Expire(id, now);
      CanReclaim(s, now, id);
      ReclaimOne(s.rows, now, id);
      var rest := ReclaimIsARun(Next(s, l), now);
      MaintenanceStep(s, l, rest, Reclaimed(s.rows, now));
      ls := [l] + rest;
    }
  }

  /** Retention in one statement is a run of single-row steps. */
  lemma {:induction false} RetentionIsARun(s: State, now: Time) returns (ls: seq<Label>)
    requires Inv(s) && now <= s.clock
    ensures IsRun(s, ls) && After(s, ls) == s.(rows := Retained(s.rows, now))
    ensures forall i :: 0 <= i < |ls| ==> ls[i].Delete?
    decreases |RetiredIds(s.rows, now)|
  {
    if RetiredIds(s.rows, now) == {} {
      NothingToMaintain(s.rows, now);
      ls := [];
    } else {
      var id :| id in RetiredIds(s.rows, now);
      var l := Delete(id, now);
      CanRetire(s, now, id);
      RetireOne(s.rows, now, id);
      var rest := RetentionIsARun(Next(s, l), now);
      MaintenanceStep(s, l, rest, Retained(s.rows, now));
      ls := [l] + rest;
    }
  }

  // --- Idempotent submission ----------------------------------------------------------------------

  /** Resubmitting under the same key is reported as a conflict exactly when the payload differs
      from the stored one in more than property order. */
  lemma ConflictMeansDifferentPayload(sha: string -> string, first: Submission, again: Submission)
    requires CanonicalJson.CollisionFree(sha)
    requires Json.WellFormed(first.data) && Json.WellFormed(again.data)
    ensures CanonicalJson.Hash(sha, first.data) != CanonicalJson.Hash(sha, again.data)
            <==> !CanonicalJson.SameUpToOrder(first.data, again.data)
    ensures CanonicalJson.Hash(sha, Json.Str(first.key)) == CanonicalJson.Hash(sha, Json.Str(again.key))
            <==> first.key == again.key
  {
    CanonicalJson.HashIdentifies(sha, first.data, again.data);
    CanonicalJson.HashIdentifies(sha, Json.Str(first.key), Json.Str(again.key));
  }

  /** The others never change the identity of a stored job, nor the unique constraint; any run of
      the protocol behaves like this (OthersAreLawful). */
  ghost predicate Lawful(others: Table -> Table, unused: JobId) {
    forall rows :: UniqueKeys(rows) && unused !in rows ==>
      UniqueKeys(others(rows)) && KeepsIdentity(rows, others(rows)) && unused !in others(rows)
  }

  lemma OthersAreLawful(s: State, ls: seq<Label>)
    requires Inv(s) && IsRun(s, ls)
    ensures UniqueKeys(After(s, ls).rows) && KeepsIdentity(s.rows, After(s, ls).rows)
  {
    RunKeepsInv(s, ls);
    forall id | id in s.rows && id in After(s, ls).rows ensures SameIdentity(s.rows[id], After(s, ls).rows[id]) {
      IdentityIsKept(s, ls, id);
    }
  }

  /** Idempotency: while the first job is stored, a second submission under its key gets the first
      receipt if the payload is the same up to property order and a conflict otherwise, and it
      stores nothing, whatever the others do before it (`meanwhile`) and during it (`between`).
      Only when retention has removed the first job is a new one accepted. */
  method SubmitTwice(store: PostgresJobStore, first: Submission, again: Submission, a: JobId, b: JobId,
                     now: Time, later: Time, meanwhile: Table -> Table, between: Table -> Table)
    returns (r1: Enqueued, r2: Enqueued)
    requires CanonicalJson.CollisionFree(store.sha)
    requires Json.WellFormed(first.data) && Json.WellFormed(again.data)
    requires UniqueKeys(store.rows) && a !in store.rows && b !in store.rows && a != b
    requires first.owner == again.owner && first.key == again.key
    requires !KeyTaken(store.rows, first.owner, CanonicalJson.Hash(store.sha, Json.Str(first.key)))
    requires Lawful(meanwhile, b) && Lawful(between, b)
    modifies store`rows
    ensures r1 == Accepted(Receipt(a, first.requestId))
    ensures var keyHash := CanonicalJson.Hash(store.sha, Json.Str(first.key));
            var middle := meanwhile(old(store.rows)[a := FirstRow(store, first, now)]);
            && (a in middle ==> store.rows == between(middle))
            && (a in middle && a in store.rows ==>
                  r2 == if CanonicalJson.SameUpToOrder(first.data, again.data) then r1 else IdempotencyConflict)
            && (!KeyTaken(middle, first.owner, keyHash) ==> r2 == Accepted(Receipt(b, again.requestId)))
  {
    r1 := store.Enqueue(first, a, now, rows => rows);
    ghost var stored := store.rows;
    store.rows := meanwhile(store.rows);
    ghost var middle := store.rows;
    r2 := store.Enqueue(again, b, later, between);
    if a in middle {
      FirstJobAnswers(store, first, again, a, now, stored, middle, store.rows, r2);
    }
  }

  lemma FirstJobAnswers(store: PostgresJobStore, first: Submission, again: Submission, a: JobId, now: Time,
                        stored: Table, middle: Table, final: Table, r: Enqueued)
    requires CanonicalJson.CollisionFree(store.sha)
    requires Json.WellFormed(first.data) && Json.WellFormed(again.data)
    requires first.owner == again.owner && first.key == again.key
    requires a in stored && stored[a] == FirstRow(store, first, now) && a in middle
    requires KeepsIdentity(stored, middle) && KeepsIdentity(middle, final)
    ensures KeyTaken(middle, again.owner, CanonicalJson.Hash(store.sha, Json.Str(again.key)))
    ensures a in final && Answers(final, again.owner, CanonicalJson.Hash(store.sha, Json.Str(again.key)),
                                  CanonicalJson.Hash(store.sha, again.data), r) ==>
              r == if CanonicalJson.SameUpToOrder(first.data, again.data)
                   then Accepted(Receipt(a, first.requestId)) else IdempotencyConflict
  {
    ConflictMeansDifferentPayload(store.sha, first, again);
    assert SameIdentity(stored[a], middle[a]);
    assert a in final ==> SameIdentity(middle[a], final[a]);
  }

  ghost function FirstRow(store: PostgresJobStore, sub: Submission, now: Time): Row {
    NewRow(sub.owner, CanonicalJson.Hash(store.sha, Json.Str(sub.key)), CanonicalJson.Hash(store.sha, sub.data),
           sub.requestId, store.maxAttempts, store.backoffMs, now)
  }
}
