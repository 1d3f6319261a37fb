/** Properties of whole runs of the job protocol: fencing, bounded work, retry delays and
    lease mutual exclusion. */
module JobRuns {
  import opened Wrappers
  import opened JobRows
  import opened JobProtocol
  import opened JobInvariant

  // --- Effective claims and outcomes ------------------------------------------------------

  datatype Event = Claimed(m: Envelope) | Concluded(m: Envelope)

  /** The attempt that a step effectively claims or concludes: the updates that hit a row. */
  function Effect(s: State, l: Label): multiset<Event>
    requires Enabled(s, l)
  {
    match l
    case Claim(h, now) =>
      var m := s.handlers[h].msg;
      if CanClaim(s.rows, m, now) then multiset{Claimed(m)} else multiset{}
    case Complete(h, _, _) =>
      var m := s.handlers[h].msg;
      if ActiveAs(s.rows, m) then multiset{Concluded(m)} else multiset{}
    case Fail(h, _, _) =>
      var m := s.handlers[h].msg;
      if ActiveAs(s.rows, m) then multiset{Concluded(m)} else multiset{}
    case Expire(id, _) => multiset{Concluded(Envelope(id, s.rows[id].attempts))}
    case _ => multiset{}
  }

  function History(s: State, ls: seq<Label>): multiset<Event>
    requires IsRun(s, ls)
    decreases ls
  {
    if ls == [] then multiset{} else Effect(s, ls[0]) + History(Next(s, ls[0]), ls[1..])
  }

  function Bit(b: bool): nat {
    if b then 1 else 0
  }

  /** Claims made and not yet concluded are exactly the attempts active in the table. */
  lemma StepBalance(s: State, l: Label, m: Envelope)
    requires Inv(s) && Enabled(s, l)
    ensures Effect(s, l)[Claimed(m)] + Bit(ActiveAs(s.rows, m))
            == Effect(s, l)[Concluded(m)] + Bit(ActiveAs(Next(s, l).rows, m))
  {
    if OfAttempt(l) && s.handlers[l.h].msg.id == m.id {
      AttemptBalance(s, l, m);
    } else if !Writes(s, l, m.id) {
      UnwrittenRowSame(s, l, m.id);
      NoEffect(s, l, m);
    } else {
      TableBalance(s, l, m);
    }
  }

  lemma NoEffect(s: State, l: Label, m: Envelope)
    requires Enabled(s, l) && !Writes(s, l, m.id)
    ensures Effect(s, l)[Claimed(m)] == 0 && Effect(s, l)[Concluded(m)] == 0
  {
  }

  lemma TableBalance(s: State, l: Label, m: Envelope)
    requires Inv(s) && Enabled(s, l) && !OfAttempt(l) && Writes(s, l, m.id)
    ensures Effect(s, l)[Claimed(m)] + Bit(ActiveAs(s.rows, m))
            == Effect(s, l)[Concluded(m)] + Bit(ActiveAs(Next(s, l).rows, m))
  {
    if l.Commit? {
      assert DispatchOk(s, s.dispatches[l.tx]);
    } else if m.id in s.rows {
      assert RowOk(s.rows[m.id]);
    }
  }

  lemma AttemptBalance(s: State, l: Label, m: Envelope)
    requires Enabled(s, l) && OfAttempt(l) && s.handlers[l.h].msg.id == m.id
    ensures Effect(s, l)[Claimed(m)] + Bit(ActiveAs(s.rows, m))
            == Effect(s, l)[Concluded(m)] + Bit(ActiveAs(Next(s, l).rows, m))
  {
  }

  /** Once the table has counted an attempt it cannot be claimed (again). */
  predicate Counted(s: State, m: Envelope) {
    m.id in s.issued && (m.id in s.rows ==> m.attempt <= s.rows[m.id].attempts)
  }

  lemma StepCounts(s: State, l: Label, m: Envelope)
    requires Inv(s) && Enabled(s, l)
    ensures Effect(s, l)[Claimed(m)] <= 1
    ensures Counted(s, m) ==> Counted(Next(s, l), m) && Effect(s, l)[Claimed(m)] == 0
    ensures Effect(s, l)[Claimed(m)] == 1 ==> Counted(Next(s, l), m)
  {
    StepEvolves(s, l);
    if m.id in s.rows {
      assert RowOk(s.rows[m.id]) && m.id in s.issued;
    }
    if m.id in s.rows && m.id in Next(s, l).rows {
      assert RowEvolves(s.rows[m.id], Next(s, l).rows[m.id]);
    }
  }

  lemma {:induction false} RunCounts(s: State, ls: seq<Label>, m: Envelope)
    requires Inv(s) && IsRun(s, ls)
    ensures History(s, ls)[Claimed(m)] <= Bit(!Counted(s, m))
    ensures History(s, ls)[Claimed(m)] + Bit(ActiveAs(s.rows, m))
            == History(s, ls)[Concluded(m)] + Bit(ActiveAs(After(s, ls).rows, m))
    decreases ls
  {
    if ls != [] {
      StepKeepsInv(s, ls[0]);
      StepCounts(s, ls[0], m);
      StepBalance(s, ls[0], m);
      RunCounts(Next(s, ls[0]), ls[1..], m);
    }
  }

  /** Fencing over whole runs: each attempt of each job is claimed at most once, and it gets
      exactly one effective outcome among complete, fail and lease expiry unless it is the
      attempt the row still shows as active. */
  lemma AttemptsAreFenced(leaseMs: nat, clock: Time, ls: seq<Label>, m: Envelope)
    requires IsRun(Init(leaseMs, clock), ls)
    ensures var s := Init(leaseMs, clock);
            && History(s, ls)[Claimed(m)] <= 1
            && History(s, ls)[Claimed(m)] == History(s, ls)[Concluded(m)] + Bit(ActiveAs(After(s, ls).rows, m))
  {
    RunCounts(Init(leaseMs, clock), ls, m);
  }

  // --- One confirmed publication per attempt --------------------------------------------------

  /** The step commits a confirmed publication of this message. */
  predicate Confirms(s: State, l: Label, m: Envelope)
    requires Enabled(s, l)
  {
    l.Commit? && s.dispatches[l.tx].msg == m
  }

  function Confirmations(s: State, ls: seq<Label>, m: Envelope): nat
    requires IsRun(s, ls)
    decreases ls
  {
    if ls == [] then 0 else Bit(Confirms(s, ls[0], m)) + Confirmations(Next(s, ls[0]), ls[1..], m)
  }

  /** The row has moved on to this attempt, or waits for it without anything to publish. */
  predicate Published(s: State, m: Envelope) {
    m.id in s.issued &&
    (m.id in s.rows ==>
      || m.attempt <= s.rows[m.id].attempts
      || (m.attempt == s.rows[m.id].attempts + 1 && Waiting(s.rows[m.id]) && !s.rows[m.id].dispatchPending))
  }

  lemma PublishedStays(s: State, l: Label, m: Envelope)
    requires Inv(s) && Enabled(s, l) && Published(s, m)
    ensures Published(Next(s, l), m) && !Confirms(s, l, m)
  {
    StepEvolves(s, l);
    if m.id in s.rows && m.id in Next(s, l).rows {
      assert RowEvolves(s.rows[m.id], Next(s, l).rows[m.id]);
    }
    if l.Commit? {
      assert DispatchOk(s, s.dispatches[l.tx]);
    }
  }

  lemma ConfirmedIsPublished(s: State, l: Label, m: Envelope)
    requires Inv(s) && Enabled(s, l) && Confirms(s, l, m)
    ensures Published(Next(s, l), m)
  {
    assert DispatchOk(s, s.dispatches[l.tx]);
  }

  lemma {:induction false} RunConfirmsOnce(s: State, ls: seq<Label>, m: Envelope)
    requires Inv(s) && IsRun(s, ls)
    ensures Confirmations(s, ls, m) <= Bit(!Published(s, m))
    decreases ls
  {
    if ls != [] {
      StepKeepsInv(s, ls[0]);
      RunConfirmsOnce(Next(s, ls[0]), ls[1..], m);
      if Published(s, m) {
        PublishedStays(s, ls[0], m);
      } else if Confirms(s, ls[0], m) {
        ConfirmedIsPublished(s, ls[0], m);
      }
    }
  }

  /** However many dispatchers compete, a publication of each attempt is committed at most once;
      further copies of a message come only from rolled-back transactions and redelivery. */
  lemma PublicationsAreCommittedOnce(leaseMs: nat, clock: Time, ls: seq<Label>, m: Envelope)
    requires IsRun(Init(leaseMs, clock), ls)
    ensures Confirmations(Init(leaseMs, clock), ls, m) <= 1
  {
    RunConfirmsOnce(Init(leaseMs, clock), ls, m);
  }

  // --- What a run can never undo ------------------------------------------------------------

  lemma {:induction false} RunKeepsOver(s: State, ls: seq<Label>, m: Envelope)
    requires Inv(s) && IsRun(s, ls) && Over(s, m)
    ensures Over(After(s, ls), m)
    decreases ls
  {
    if ls != [] {
      StepKeepsInv(s, ls[0]);
      StepEvolves(s, ls[0]);
      OverEvolves(s, Next(s, ls[0]), m);
      RunKeepsOver(Next(s, ls[0]), ls[1..], m);
    }
  }

  /** A finished job keeps its row, result and error included, until retention removes it,
      and a removed job never comes back. */
  lemma {:induction false} FinishedRowsAreFrozen(s: State, ls: seq<Label>, id: JobId)
    requires Inv(s) && IsRun(s, ls) && id in s.issued
    requires id in s.rows ==> Terminal(s.rows[id])
    ensures id in After(s, ls).rows ==> id in s.rows && After(s, ls).rows[id] == s.rows[id]
    decreases ls
  {
    if ls != [] {
      var t := Next(s, ls[0]);
      StepKeepsInv(s, ls[0]);
      StepEvolves(s, ls[0]);
      if id in s.rows && id in t.rows {
        assert RowEvolves(s.rows[id], t.rows[id]);
      }
      FinishedRowsAreFrozen(t, ls[1..], id);
    }
  }

  /** What identifies a job to its submitter. */
  predicate SameIdentity(r: Row, r': Row) {
    SameKey(r, r') && r.payloadHash == r'.payloadHash && r.requestId == r'.requestId
  }

  predicate KeepsIdentity(rows: Table, rows': Table) {
    forall id :: id in rows && id in rows' ==> SameIdentity(rows[id], rows'[id])
  }

  /** As long as a job is stored it keeps its key, payload and request id. */
  lemma {:induction false} IdentityIsKept(s: State, ls: seq<Label>, id: JobId)
    requires Inv(s) && IsRun(s, ls) && id in s.rows && id in After(s, ls).rows
    ensures SameIdentity(s.rows[id], After(s, ls).rows[id])
    decreases ls
  {
    if ls != [] {
      var t := Next(s, ls[0]);
      StepKeepsInv(s, ls[0]);
      StepEvolves(s, ls[0]);
      if id in t.rows {
        assert RowEvolves(s.rows[id], t.rows[id]);
        IdentityIsKept(t, ls[1..], id);
      } else {
        assert id in s.issued;
        FinishedRowsAreFrozen(t, ls[1..], id);
      }
    }
  }

  /** Rows leave the table only through retention: finished, and for more than 24 hours. */
  lemma OnlyRetentionRemoves(s: State, l: Label, id: JobId)
    requires Inv(s) && Enabled(s, l) && id in s.rows && id !in Next(s, l).rows
    ensures Terminal(s.rows[id]) && s.rows[id].finishedAt.value + RETENTION_MS < s.clock
  {
    assert RowOk(s.rows[id]);
    if !Writes(s, l, id) {
      UnwrittenRowSame(s, l, id);
    } else {
      assert l.Delete?;
    }
  }

  /** Persist before ack: a delivery whose attempt was claimed is acknowledged or rejected
      only when that attempt can never again be active, and rejected only when the job has
      failed for good. */
  lemma SettledAttemptsStayOver(leaseMs: nat, clock: Time, before: seq<Label>, h: nat, after: seq<Label>)
    requires IsRun(Init(leaseMs, clock), before)
    requires var s := After(Init(leaseMs, clock), before);
             Enabled(s, Settle(h)) && s.handlers[h].phase.claimant && IsRun(s, after)
    ensures var s := After(Init(leaseMs, clock), before);
            var m := s.handlers[h].msg;
            var t := After(s, after);
            && !ActiveAs(t.rows, m)
            && (s.handlers[h].phase.action == DeadLetter && m.id in t.rows ==> t.rows[m.id].status == Failed)
  {
    RunKeepsInv(Init(leaseMs, clock), before);
    var s := After(Init(leaseMs, clock), before);
    assert HandlerOk(s, s.handlers[h]);
    RunKeepsOver(s, after, s.handlers[h].msg);
    if s.handlers[h].phase.action == DeadLetter {
      FinishedRowsAreFrozen(s, after, s.handlers[h].msg.id);
    }
  }

  /** A stale execution changes nothing: once an attempt is over, no later report of its
      outcome, by any handler, alters the table. */
  lemma StaleReportsAreIgnored(s: State, ls: seq<Label>, l: Label)
    requires Inv(s) && IsRun(s, ls) && Enabled(After(s, ls), l) && (l.Complete? || l.Fail?)
    requires Over(s, After(s, ls).handlers[l.h].msg)
    ensures Next(After(s, ls), l).rows == After(s, ls).rows
  {
    RunKeepsOver(s, ls, After(s, ls).handlers[l.h].msg);
  }

  // --- Every outcome has its cause ------------------------------------------------------------

  /** The columns that the end of an attempt must leave, for each way in which it can end. */
  predicate Explains(s: State, l: Label, id: JobId, r: Row)
    requires Enabled(s, l)
  {
    if l.Complete? then
      && s.handlers[l.h].msg == Envelope(id, r.attempts)
      && r.status == Completed && r.response == Some(l.response) && r.errorCode == None
      && r.finishedAt == Some(l.now)
    else if l.Fail? then
      && s.handlers[l.h].msg == Envelope(id, r.attempts)
      && r.errorCode == Some(l.failure.code) && r.response == None
      && (if l.failure.retryable && r.attempts < r.maxAttempts
          then r.status == Retrying && r.finishedAt == None && r.backoffMs >= 1 && r.attempts >= 1
               && r.availableAt == l.now + Max(l.failure.retryAfterMs, DoublingDelay(r.backoffMs, r.attempts))
          else r.status == Failed && r.finishedAt == Some(l.now))
    else if l.Expire? then
      && l.id == id && s.rows[id].attempts == r.attempts && s.rows[id].leaseUntil.Some?
      && s.rows[id].leaseUntil.value < l.now
      && r.errorCode == Some("JOB_FAILED") && r.response == None && r.availableAt == l.now
      && (if r.attempts < r.maxAttempts then r.status == Queued && r.finishedAt == None
          else r.status == Failed && r.finishedAt == Some(l.now))
    else false
  }

  /** Some step of the run ended the row's last attempt, and it explains the row. */
  predicate Explained(s: State, ls: seq<Label>, id: JobId, r: Row)
    requires IsRun(s, ls)
    decreases ls
  {
    ls != [] && (Explains(s, ls[0], id, r) || Explained(Next(s, ls[0]), ls[1..], id, r))
  }

  /** The row shows an attempt that has ended. */
  predicate Ended(rows: Table, id: JobId, attempts: nat) {
    id in rows && rows[id].attempts == attempts >= 1 && rows[id].status != Active
  }

  lemma ReportExplains(s: State, l: Label, id: JobId)
    requires RowsOk(s) && Enabled(s, l) && (l.Complete? || l.Fail?) && s.handlers[l.h].msg.id == id
    requires id in s.rows && s.rows[id].status == Active && Ended(Next(s, l).rows, id, s.rows[id].attempts)
    ensures Explains(s, l, id, Next(s, l).rows[id])
  {
    assert RowOk(s.rows[id]);
    BackoffIsCappedDoubling(s.rows[id].backoffMs, s.rows[id].attempts);
  }

  lemma EndingExplains(s: State, l: Label, id: JobId)
    requires Inv(s) && Enabled(s, l) && id in s.rows && s.rows[id].status == Active
    requires Ended(Next(s, l).rows, id, s.rows[id].attempts)
    ensures Explains(s, l, id, Next(s, l).rows[id])
  {
    assert RowOk(s.rows[id]);
    if !Writes(s, l, id) {
      UnwrittenRowSame(s, l, id);
    } else if l.Complete? || l.Fail? {
      ReportExplains(s, l, id);
    }
  }

  /** An ended attempt keeps its explanation; only the pending flag of a waiting row may fall. */
  lemma ExplanationStays(s: State, l: Label, id: JobId, r: Row, r': Row)
    requires Enabled(s, l) && Explains(s, l, id, r) && r' == r.(dispatchPending := r'.dispatchPending)
    ensures Explains(s, l, id, r')
  {
  }

  predicate SameButFlag(r: Row, r': Row) {
    r' == r.(dispatchPending := r'.dispatchPending)
  }

  /** Until it is claimed again or removed, an ended row changes in its flag alone. */
  lemma {:induction false} EndedIsStable(s: State, ls: seq<Label>, id: JobId, attempts: nat)
    requires Inv(s) && IsRun(s, ls) && Ended(s.rows, id, attempts) && Ended(After(s, ls).rows, id, attempts)
    ensures SameButFlag(s.rows[id], After(s, ls).rows[id])
    decreases ls
  {
    if ls != [] {
      var t := Next(s, ls[0]);
      StepKeepsInv(s, ls[0]);
      StepEvolves(s, ls[0]);
      if id !in t.rows {
        assert id in s.issued;
        FinishedRowsAreFrozen(t, ls[1..], id);
      } else {
        assert RowEvolves(s.rows[id], t.rows[id]);
        WorkIsBounded(t, ls[1..], id);
        EndedIsStable(t, ls[1..], id, attempts);
      }
    }
  }

  lemma {:induction false} RunExplains(s: State, ls: seq<Label>, id: JobId, attempts: nat)
    requires Inv(s) && IsRun(s, ls) && Ended(After(s, ls).rows, id, attempts) && !Ended(s.rows, id, attempts)
    ensures Explained(s, ls, id, After(s, ls).rows[id])
    decreases ls
  {
    var l, t := ls[0], Next(s, ls[0]);
    StepKeepsInv(s, l);
    if Ended(t.rows, id, attempts) {
      StepEvolves(s, l);
      RowAdvances(s, l, id);
      assert RowEvolves(s.rows[id], t.rows[id]);
      EndingExplains(s, l, id);
      EndedIsStable(t, ls[1..], id, attempts);
      ExplanationStays(s, l, id, t.rows[id], After(s, ls).rows[id]);
    } else {
      RunExplains(t, ls[1..], id, attempts);
    }
  }

  /** Every ended attempt was ended by a step of the run that explains the row: a completed row
      holds the response that was reported; a row failed only because its last attempt reported a
      permanent failure or no attempts were left; a retryable failure waits exactly the documented
      delay; and a lost lease puts the job straight back into the queue while attempts are left. */
  lemma EveryOutcomeHasItsCause(leaseMs: nat, clock: Time, ls: seq<Label>, id: JobId)
    requires IsRun(Init(leaseMs, clock), ls)
    requires var rows := After(Init(leaseMs, clock), ls).rows;
             id in rows && rows[id].attempts >= 1 && rows[id].status != Active
    ensures Explained(Init(leaseMs, clock), ls, id, After(Init(leaseMs, clock), ls).rows[id])
  {
    RunExplains(Init(leaseMs, clock), ls, id, After(Init(leaseMs, clock), ls).rows[id].attempts);
  }

  // --- Bounded work ---------------------------------------------------------------------------

  predicate ChangesStatus(s: State, l: Label, id: JobId)
    requires Enabled(s, l)
  {
    id in s.rows && id in Next(s, l).rows && s.rows[id].status != Next(s, l).rows[id].status
  }

  function StatusChanges(s: State, ls: seq<Label>, id: JobId): nat
    requires IsRun(s, ls)
    decreases ls
  {
    if ls == [] then 0
    else Bit(ChangesStatus(s, ls[0], id)) + StatusChanges(Next(s, ls[0]), ls[1..], id)
  }

  /** Executions of a job that a run starts. */
  function Executions(s: State, ls: seq<Label>, id: JobId): nat
    requires IsRun(s, ls)
    decreases ls
  {
    if ls == [] then 0
    else Bit(Starts(s, ls[0], id)) + Executions(Next(s, ls[0]), ls[1..], id)
  }

  predicate Starts(s: State, l: Label, id: JobId)
    requires Enabled(s, l)
  {
    l.Claim? && s.handlers[l.h].msg.id == id && Claimed(s.handlers[l.h].msg) in Effect(s, l)
  }

  lemma StartsAdvance(s: State, l: Label, id: JobId)
    requires Inv(s) && Enabled(s, l) && id in s.rows && id in Next(s, l).rows
    ensures Next(s, l).rows[id].attempts == s.rows[id].attempts + Bit(Starts(s, l, id))
  {
    if !Writes(s, l, id) {
      UnwrittenRowSame(s, l, id);
    } else if l.Commit? {
      assert DispatchOk(s, s.dispatches[l.tx]);
    }
  }

  lemma StepWork(s: State, l: Label, id: JobId)
    requires Inv(s) && Enabled(s, l) && id in s.rows && id in Next(s, l).rows
    ensures WorkLeft(Next(s, l).rows[id]) + Bit(ChangesStatus(s, l, id)) <= WorkLeft(s.rows[id])
    ensures Next(s, l).rows[id].attempts == s.rows[id].attempts + Bit(Starts(s, l, id))
    ensures Next(s, l).rows[id].maxAttempts == s.rows[id].maxAttempts
  {
    StartsAdvance(s, l, id);
    StepEvolves(s, l);
    assert RowEvolves(s.rows[id], Next(s, l).rows[id]);
  }

  lemma GoneMeansIdle(s: State, l: Label, id: JobId)
    requires Inv(s) && Enabled(s, l) && id in s.issued && id !in s.rows
    ensures id !in Next(s, l).rows && id in Next(s, l).issued && !Starts(s, l, id)
  {
    StepEvolves(s, l);
  }

  lemma {:induction false} GoneRunsAreIdle(s: State, ls: seq<Label>, id: JobId)
    requires Inv(s) && IsRun(s, ls) && id in s.issued && id !in s.rows
    ensures StatusChanges(s, ls, id) == 0 && Executions(s, ls, id) == 0
    decreases ls
  {
    if ls != [] {
      StepKeepsInv(s, ls[0]);
      GoneMeansIdle(s, ls[0], id);
      GoneRunsAreIdle(Next(s, ls[0]), ls[1..], id);
    }
  }

  /** Bounded work: every status change uses up work, so from any reachable state a job has at
      most as many executions as unused attempts, and at most 2 * max_attempts status changes. */
  lemma {:induction false} WorkIsBounded(s: State, ls: seq<Label>, id: JobId)
    requires Inv(s) && IsRun(s, ls) && id in s.rows
    ensures Executions(s, ls, id) <= s.rows[id].maxAttempts - s.rows[id].attempts
    ensures StatusChanges(s, ls, id) <= WorkLeft(s.rows[id]) <= 2 * s.rows[id].maxAttempts
    ensures id in After(s, ls).rows ==>
              && After(s, ls).rows[id].attempts == s.rows[id].attempts + Executions(s, ls, id)
              && After(s, ls).rows[id].maxAttempts == s.rows[id].maxAttempts
    decreases ls
  {
    assert RowOk(s.rows[id]);
    if ls != [] {
      var t := Next(s, ls[0]);
      StepKeepsInv(s, ls[0]);
      if id in t.rows {
        StepWork(s, ls[0], id);
        WorkIsBounded(t, ls[1..], id);
      } else {
        OnlyRetentionRemoves(s, ls[0], id);
        StepEvolves(s, ls[0]);
        assert !Starts(s, ls[0], id);
        GoneRunsAreIdle(t, ls[1..], id);
        FinishedRowsAreFrozen(t, ls[1..], id);
      }
    }
  }

  // --- Retry delays -----------------------------------------------------------------------------

  /** The row waits for its next attempt with this due time, or has moved on. */
  predicate WaitsUntil(s: State, id: JobId, attempts: nat, due: Time) {
    id in s.issued &&
    (id in s.rows ==>
      || s.rows[id].attempts > attempts
      || (s.rows[id].attempts == attempts && Waiting(s.rows[id]) && s.rows[id].availableAt == due))
  }

  lemma {:induction false} WaitIsStable(s: State, ls: seq<Label>, id: JobId, attempts: nat, due: Time)
    requires Inv(s) && IsRun(s, ls) && WaitsUntil(s, id, attempts, due)
    ensures WaitsUntil(After(s, ls), id, attempts, due)
    decreases ls
  {
    if ls != [] {
      var t := Next(s, ls[0]);
      StepKeepsInv(s, ls[0]);
      StepEvolves(s, ls[0]);
      if id in s.rows && id in t.rows {
        assert RowEvolves(s.rows[id], t.rows[id]);
      }
      WaitIsStable(t, ls[1..], id, attempts, due);
    }
  }

  /** The step dispatches or claims this attempt, at this timestamp. */
  predicate Takes(s: State, l: Label, m: Envelope)
    requires Enabled(s, l)
  {
    || (l.LockDue? && l.id == m.id && s.rows[l.id].attempts + 1 == m.attempt)
    || (l.Claim? && s.handlers[l.h].msg == m && Claimed(m) in Effect(s, l))
  }

  /** After a retryable failure of attempt n, attempt n + 1 is neither dispatched nor claimed
      before the capped exponential delay, nor before the circuit's remaining cooldown. */
  lemma RetryWaitsForBackoff(s: State, h: nat, f: Failure, now: Time, ls: seq<Label>, l: Label)
    requires Inv(s) && Enabled(s, Fail(h, f, now))
    requires ActiveAs(s.rows, s.handlers[h].msg)
    requires f.retryable && s.handlers[h].msg.attempt < s.rows[s.handlers[h].msg.id].maxAttempts
    requires var t := Next(s, Fail(h, f, now));
             IsRun(t, ls) && Enabled(After(t, ls), l)
    requires var m := s.handlers[h].msg;
             Takes(After(Next(s, Fail(h, f, now)), ls), l, Envelope(m.id, m.attempt + 1))
    ensures var m := s.handlers[h].msg;
            l.now >= now + DoublingDelay(s.rows[m.id].backoffMs, m.attempt) && l.now >= now + f.retryAfterMs
  {
    var m := s.handlers[h].msg;
    var t := Next(s, Fail(h, f, now));
    var r := s.rows[m.id];
    assert RowOk(r);
    BackoffIsCappedDoubling(r.backoffMs, m.attempt);
    var due := now + Max(f.retryAfterMs, BackoffDelay(r.backoffMs, m.attempt));
    StepKeepsInv(s, Fail(h, f, now));
    WaitIsStable(t, ls, m.id, m.attempt, due);
  }

  // --- Lease mutual exclusion -------------------------------------------------------------------

  /** Every execution still running is within its lease. */
  predicate Timely(s: State) {
    forall h :: h in s.handlers && s.handlers[h].phase.Executing? ==>
      s.clock <= s.handlers[h].phase.claimedAt + s.leaseMs
  }

  predicate TimelyRun(s: State, ls: seq<Label>)
    requires IsRun(s, ls)
    decreases ls
  {
    Timely(s) && (ls == [] || TimelyRun(Next(s, ls[0]), ls[1..]))
  }

  predicate Owns(s: State, w: Handler) {
    && ActiveAs(s.rows, w.msg)
    && w.phase.Executing?
    && s.rows[w.msg.id].leaseUntil == Some(w.phase.claimedAt + s.leaseMs)
  }

  predicate Exclusive(s: State) {
    && (forall h :: h in s.handlers && s.handlers[h].phase.Executing? ==> Owns(s, s.handlers[h]))
    && (forall g, h | g in s.handlers && h in s.handlers && s.handlers[g].phase.Executing?
          && s.handlers[h].phase.Executing? && s.handlers[g].msg.id == s.handlers[h].msg.id :: g == h)
  }

  /** No step takes a row away from a handler that owns it, except that handler's own report. */
  lemma OwnerKept(s: State, l: Label, h: nat)
    requires Inv(s) && Enabled(s, l) && Timely(s) && Exclusive(s)
    requires h in s.handlers && s.handlers[h].phase.Executing? && !ActsOn(l, h)
    ensures var m := s.handlers[h].msg;
            m.id in Next(s, l).rows && Next(s, l).rows[m.id] == s.rows[m.id]
  {
    var m := s.handlers[h].msg;
    assert Owns(s, s.handlers[h]) && RowOk(s.rows[m.id]);
    if !Writes(s, l, m.id) {
      UnwrittenRowSame(s, l, m.id);
    }
  }

  lemma StartingOwns(s: State, l: Label)
    requires Inv(s) && Enabled(s, l) && l.Claim? && Next(s, l).handlers[l.h].phase.Executing?
    ensures Owns(Next(s, l), Next(s, l).handlers[l.h])
    ensures Waiting(s.rows[s.handlers[l.h].msg.id])
  {
  }

  lemma ExecutingOrigin(s: State, l: Label, h: nat)
    requires Enabled(s, l) && h in Next(s, l).handlers && Next(s, l).handlers[h].phase.Executing?
    ensures h in s.handlers && s.handlers[h].msg == Next(s, l).handlers[h].msg
    ensures (l.Claim? && l.h == h) || s.handlers[h].phase == Next(s, l).handlers[h].phase
    ensures !(l.Claim? && l.h == h) ==> !ActsOn(l, h) || l.Requeue?
  {
    if !ActsOn(l, h) {
      OtherHandlersSame(s, l, h);
    } else {
      ActingOrigin(s, l, h);
    }
  }

  lemma ActingOrigin(s: State, l: Label, h: nat)
    requires Enabled(s, l) && ActsOn(l, h) && Next(s, l).handlers[h].phase.Executing?
    ensures l.Claim? || l.Requeue?
    ensures h in s.handlers && s.handlers[h].msg == Next(s, l).handlers[h].msg
    ensures l.Requeue? ==> s.handlers[h].phase == Next(s, l).handlers[h].phase
  {
  }

  lemma OwnershipKept(s: State, l: Label, h: nat)
    requires Inv(s) && Enabled(s, l) && Timely(s) && Exclusive(s)
    requires h in Next(s, l).handlers && Next(s, l).handlers[h].phase.Executing?
    ensures Owns(Next(s, l), Next(s, l).handlers[h])
  {
    ExecutingOrigin(s, l, h);
    if l.Claim? && l.h == h {
      StartingOwns(s, l);
    } else {
      OldOwnerStays(s, l, h);
    }
  }

  lemma OldOwnerStays(s: State, l: Label, h: nat)
    requires Inv(s) && Enabled(s, l) && Timely(s) && Exclusive(s)
    requires h in s.handlers && s.handlers[h].phase.Executing? && (!ActsOn(l, h) || l.Requeue?)
    requires h in Next(s, l).handlers && Next(s, l).handlers[h].msg == s.handlers[h].msg
    requires Next(s, l).handlers[h].phase == s.handlers[h].phase
    ensures Owns(Next(s, l), Next(s, l).handlers[h])
  {
    assert Owns(s, s.handlers[h]);
    if !ActsOn(l, h) {
      OwnerKept(s, l, h);
    }
    LeaseUnchanged(s, l);
  }

  lemma LeaseUnchanged(s: State, l: Label)
    requires Enabled(s, l)
    ensures Next(s, l).leaseMs == s.leaseMs
    ensures l.Requeue? ==> Next(s, l).rows == s.rows
  {
    if OfDispatcher(l) {
      DispatcherFrame(s, l);
    } else if OfHandler(l) {
      HandlerFrame(s, l);
    } else {
      OtherFrame(s, l);
    }
  }

  /** A handler that starts finds the row waiting, so no other one was executing this job. */
  lemma StartsAlone(s: State, l: Label, g: nat, h: nat)
    requires Inv(s) && Enabled(s, l) && Exclusive(s)
    requires g in Next(s, l).handlers && Next(s, l).handlers[g].phase.Executing?
    requires h in Next(s, l).handlers && Next(s, l).handlers[h].phase.Executing?
    requires Next(s, l).handlers[g].msg.id == Next(s, l).handlers[h].msg.id
    ensures g == h
  {
    ExecutingOrigin(s, l, g);
    ExecutingOrigin(s, l, h);
    if l.Claim? && (l.h == g || l.h == h) && g != h {
      StartingOwns(s, l);
      assert false;
    }
  }

  lemma StepKeepsExclusive(s: State, l: Label)
    requires Inv(s) && Enabled(s, l) && Timely(s) && Exclusive(s)
    ensures Exclusive(Next(s, l))
  {
    var t := Next(s, l);
    forall h | h in t.handlers && t.handlers[h].phase.Executing? ensures Owns(t, t.handlers[h]) {
      OwnershipKept(s, l, h);
    }
    forall g, h | g in t.handlers && h in t.handlers && t.handlers[g].phase.Executing?
      && t.handlers[h].phase.Executing? && t.handlers[g].msg.id == t.handlers[h].msg.id
      ensures g == h
    {
      StartsAlone(s, l, g, h);
    }
  }

  lemma {:induction false} TimelyRunsAreExclusive(s: State, ls: seq<Label>)
    requires Inv(s) && IsRun(s, ls) && TimelyRun(s, ls) && Exclusive(s)
    ensures Exclusive(After(s, ls))
    decreases ls
  {
    if ls != [] {
      StepKeepsInv(s, ls[0]);
      StepKeepsExclusive(s, ls[0]);
      TimelyRunsAreExclusive(Next(s, ls[0]), ls[1..]);
    }
  }

  /** Lease mutual exclusion: if every execution that survives reports within its lease, then
      maintenance reclaims no running attempt and at most one execution per job runs. */
  lemma LeaseIsMutualExclusion(leaseMs: nat, clock: Time, ls: seq<Label>, g: nat, h: nat)
    requires IsRun(Init(leaseMs, clock), ls) && TimelyRun(Init(leaseMs, clock), ls)
    requires var s := After(Init(leaseMs, clock), ls);
             && g in s.handlers && s.handlers[g].phase.Executing?
             && h in s.handlers && s.handlers[h].phase.Executing?
    ensures var s := After(Init(leaseMs, clock), ls);
            && ActiveAs(s.rows, s.handlers[h].msg)
            && (s.handlers[g].msg.id == s.handlers[h].msg.id ==> g == h)
  {
    TimelyRunsAreExclusive(Init(leaseMs, clock), ls);
  }
}
