/** RabbitMqJobWorker: one delivery from claim to the decision to acknowledge, and one round of
    the dispatch loop, each with the other workers at work in between. */
module JobWorker {
  import opened Wrappers
  import opened JobRows
  import opened JobProtocol
  import opened JobInvariant
  import opened JobStore

  /** Persist first, acknowledge second: the returned action is decided by what the outcome
      statement did to the table, and a delivery is dead-lettered only together with a row that
      this call moved to `failed`. While the processor runs the others may do anything to the
      table (`meanwhile`). */
  method Execute(store: PostgresJobStore, m: Envelope, claimNow: Time, meanwhile: Table -> Table,
                 outcome: Processed, now: Time)
    returns (action: Action)
    requires m.attempt >= 1
    modifies store`rows
    ensures if !CanClaim(old(store.rows), m, claimNow) then
              action == Ack && store.rows == old(store.rows)
            else
              var found := meanwhile(ClaimedTable(old(store.rows), m, claimNow, store.leaseMs));
              action == ReportAction(found, m, outcome) && store.rows == Reported(found, m, outcome, now)
    ensures action == DeadLetter <==>
              && CanClaim(old(store.rows), m, claimNow) && !outcome.Answer?
              && ActiveAs(meanwhile(ClaimedTable(old(store.rows), m, claimNow, store.leaseMs)), m)
              && m.id in store.rows && store.rows[m.id].status == Failed
    ensures outcome.Crashed? && CanClaim(old(store.rows), m, claimNow)
              && ActiveAs(meanwhile(ClaimedTable(old(store.rows), m, claimNow, store.leaseMs)), m) ==>
              action == DeadLetter && store.rows[m.id].errorCode == Some("JOB_FAILED")
    ensures CanClaim(old(store.rows), m, claimNow) ==> ReportsAreVoid(store.rows, m)
  {
    var job := store.ClaimAttempt(m, claimNow);
    if job.None? {
      return Ack;
    }
    store.rows := meanwhile(store.rows);
    if outcome.Answer? {
      store.CompleteAttempt(m, outcome.response, now);
      return Ack;
    }
    var status := store.FailAttempt(m, AsFailure(outcome), now);
    return if status == Some(Failed) then DeadLetter else Ack;
  }

  function ReportAction(rows: Table, m: Envelope, p: Processed): Action {
    if p.Answer? then Ack else FailAction(rows, m, AsFailure(p))
  }

  /** Steps that do not move this handler on. Losing its connection does not. */
  predicate LeavesAlone(ls: seq<Label>, h: nat) {
    forall i :: 0 <= i < |ls| ==>
      (OfAttempt(ls[i]) || ls[i].Settle? || ls[i].Abandon? || ls[i].Vanish? ==> ls[i].h != h)
  }

  lemma StepLeavesPhase(s: State, l: Label, h: nat)
    requires Enabled(s, l) && LeavesAlone([l], h) && h in s.handlers
    ensures h in Next(s, l).handlers
    ensures Next(s, l).handlers[h].phase == s.handlers[h].phase && Next(s, l).handlers[h].msg == s.handlers[h].msg
  {
    assert [l][0] == l;
    if OfAttempt(l) {
      AttemptFrame(s, l);
    } else if OfDispatcher(l) {
      DispatcherFrame(s, l);
    } else if !OfDelivery(l) {
      OtherFrame(s, l);
    }
  }

  lemma {:induction false} RunLeavesPhase(s: State, ls: seq<Label>, h: nat)
    requires IsRun(s, ls) && LeavesAlone(ls, h) && h in s.handlers
    ensures h in After(s, ls).handlers
    ensures After(s, ls).handlers[h].phase == s.handlers[h].phase && After(s, ls).handlers[h].msg == s.handlers[h].msg
    decreases ls
  {
    if ls != [] {
      StepLeavesPhase(s, ls[0], h);
      RunLeavesPhase(Next(s, ls[0]), ls[1..], h);
    }
  }

  function ReportLabel(h: nat, p: Processed, now: Time): Label {
    if p.Answer? then Complete(h, p.response, now) else Fail(h, AsFailure(p), now)
  }

  /** `Execute` is a run of the protocol, with any steps of the others while the processor runs:
      the claim, then the report on the table as the others left it. The handler then has decided
      on the action that `Execute` returns. */
  lemma ExecuteIsARun(s: State, h: nat, claimNow: Time, others: seq<Label>, p: Processed, now: Time)
    requires Enabled(s, Claim(h, claimNow)) && s.handlers[h].msg.attempt >= 1
    requires IsRun(Next(s, Claim(h, claimNow)), others) && LeavesAlone(others, h)
    requires MayWrite(After(Next(s, Claim(h, claimNow)), others), s.handlers[h].msg.id, now)
    ensures var m := s.handlers[h].msg;
            var s1 := Next(s, Claim(h, claimNow));
            var s2 := After(s1, others);
            && s1.rows == ClaimedTable(s.rows, m, claimNow, s.leaseMs)
            && (!CanClaim(s.rows, m, claimNow) ==> s1.rows == s.rows && s1.handlers[h].phase == Decided(Ack, false))
            && (CanClaim(s.rows, m, claimNow) ==>
                  && Enabled(s2, ReportLabel(h, p, now))
                  && Next(s2, ReportLabel(h, p, now)).rows == Reported(s2.rows, m, p, now)
                  && Next(s2, ReportLabel(h, p, now)).handlers[h].phase == Decided(ReportAction(s2.rows, m, p), true))
  {
    RunLeavesPhase(Next(s, Claim(h, claimNow)), others, h);
  }

  // --- The dispatch loop -------------------------------------------------------------------------

  const BATCH: nat := 100

  /** What a dispatcher sees: the table and the rows that others hold. */
  datatype View = View(rows: Table, locked: set<JobId>)

  /** The order of dispatching: by due time, then by id. */
  datatype Rank = Rank(due: Time, id: JobId)

  predicate Before(a: Rank, b: Rank) {
    a.due < b.due || (a.due == b.due && a.id < b.id)
  }

  function RankIn(v: View, id: JobId): Rank
    requires id in v.rows
  {
    Rank(v.rows[id].availableAt, id)
  }

  /** Pending, waiting and not held by anyone, though perhaps not yet due. */
  predicate Free(v: View, id: JobId) {
    id in v.rows && id !in v.locked && v.rows[id].dispatchPending && Waiting(v.rows[id])
  }

  /** The row that a call at `now` dispatches: the first free row that is due. */
  ghost predicate Picked(v: View, m: Envelope, now: Time) {
    && Free(v, m.id) && v.rows[m.id].availableAt <= now && m.attempt == v.rows[m.id].attempts + 1
    && forall id :: Free(v, id) && v.rows[id].availableAt <= now && id != m.id ==>
         Before(RankIn(v, m.id), RankIn(v, id))
  }

  function Committed(v: View, m: Envelope): View {
    if m.id in v.rows then v.(rows := v.rows[m.id := v.rows[m.id].(dispatchPending := false)]) else v
  }

  /** A round of calls. Before call number i the others do `others(i, _)`: other dispatchers take
      and release rows, jobs are submitted, claimed, retried, reclaimed and removed. What they do
      during a call counts as done after it; the row that the call holds they cannot touch. */
  datatype Round = Round(start: View, others: (nat, View) -> View, now: nat -> Time)

  /** The view after the first `i` messages were committed. */
  function LeftAfter(r: Round, sent: seq<Envelope>, i: nat): View
    requires i <= |sent|
    decreases i, 0
  {
    if i == 0 then r.start else Committed(SeenBy(r, sent, i - 1), sent[i - 1])
  }

  /** The view that call number `i` finds. */
  function SeenBy(r: Round, sent: seq<Envelope>, i: nat): View
    requires i <= |sent|
    decreases i, 1
  {
    r.others(i, LeftAfter(r, sent, i))
  }

  /** Each message is the one its call had to send. */
  ghost predicate Sends(r: Round, sent: seq<Envelope>) {
    forall i :: 0 <= i < |sent| ==> Picked(SeenBy(r, sent, i), sent[i], r.now(i))
  }

  lemma {:induction false} SeenIsLocal(r: Round, sent: seq<Envelope>, m: Envelope, i: nat)
    requires i <= |sent|
    ensures LeftAfter(r, sent + [m], i) == LeftAfter(r, sent, i) && SeenBy(r, sent + [m], i) == SeenBy(r, sent, i)
  {
    if i > 0 {
      SeenIsLocal(r, sent, m, i - 1);
    }
  }

  lemma SendsOneMore(r: Round, sent: seq<Envelope>, m: Envelope)
    requires Sends(r, sent) && Picked(SeenBy(r, sent, |sent|), m, r.now(|sent|))
    ensures Sends(r, sent + [m])
    ensures LeftAfter(r, sent + [m], |sent| + 1) == Committed(SeenBy(r, sent, |sent|), m)
  {
    forall i | 0 <= i <= |sent| ensures Picked(SeenBy(r, sent + [m], i), (sent + [m])[i], r.now(i)) {
      SeenIsLocal(r, sent, m, i);
    }
    SeenIsLocal(r, sent, m, |sent|);
  }

  lemma EarliestIsPicked(v: View, m: Envelope, now: Time)
    requires m.id in v.rows && m.id !in v.locked && Due(v.rows[m.id], now) && m.attempt == v.rows[m.id].attempts + 1
    requires forall id :: id in v.rows && Due(v.rows[id], now) && id !in v.locked ==>
               id == m.id || Earlier(v.rows, m.id, id)
    ensures Picked(v, m, now)
  {
  }

  /** Call number |sent| of a round. */
  method DispatchNext(store: PostgresJobStore, r: Round, sent: seq<Envelope>, confirmed: bool) returns (d: Dispatched)
    requires Sends(r, sent) && View(store.rows, store.locked) == LeftAfter(r, sent, |sent|)
    modifies store`rows, store`locked
    ensures d.Published? ==>
              && confirmed && Sends(r, sent + [d.m])
              && View(store.rows, store.locked) == LeftAfter(r, sent + [d.m], |sent| + 1)
    ensures !d.Published? ==> View(store.rows, store.locked) == SeenBy(r, sent, |sent|)
    ensures d.PublishFailed? ==> !confirmed
    ensures d.NothingDue? ==>
              var v := SeenBy(r, sent, |sent|); forall id :: Free(v, id) ==> v.rows[id].availableAt > r.now(|sent|)
  {
    var v := r.others(|sent|, View(store.rows, store.locked));
    store.rows, store.locked := v.rows, v.locked;
    d := store.DispatchOne(r.now(|sent|), confirmed);
    if d.Published? {
      EarliestIsPicked(v, d.m, r.now(|sent|));
      SendsOneMore(r, sent, d.m);
    }
  }

  /** One round of the worker's loop after maintenance: dispatch until nothing is due, a
      publication fails, the worker is stopped (before call number `stopAt`) or a hundred
      messages went out. Call number i is confirmed if `confirmed(i)`. */
  method DispatchBatch(store: PostgresJobStore, r: Round, confirmed: nat -> bool, stopAt: nat)
    returns (sent: seq<Envelope>, threw: bool)
    requires r.start == View(store.rows, store.locked)
    modifies store`rows, store`locked
    ensures Sends(r, sent)
    ensures |sent| <= 100 && |sent| <= stopAt
    ensures forall i :: 0 <= i < |sent| ==> confirmed(i)
    ensures var v := View(store.rows, store.locked);
            if |sent| == 100 || |sent| == stopAt then
              v == LeftAfter(r, sent, |sent|) && !threw
            else
              && v == SeenBy(r, sent, |sent|)
              && (if threw then !confirmed(|sent|)
                  else forall id :: Free(v, id) ==> v.rows[id].availableAt > r.now(|sent|))
  {
    sent := [];
    while |sent| < BATCH && |sent| < stopAt
      invariant |sent| <= BATCH && |sent| <= stopAt
      invariant Sends(r, sent) && View(store.rows, store.locked) == LeftAfter(r, sent, |sent|)
      invariant forall i :: 0 <= i < |sent| ==> confirmed(i)
    {
      var d := DispatchNext(store, r, sent, confirmed(|sent|));
      if !d.Published? {
        return sent, d.PublishFailed?;
      }
      sent := sent + [d.m];
    }
    return sent, false;
  }

  // --- The order of a round -------------------------------------------------------------------------

  /** The rank of a message when it was sent. */
  ghost function RankOf(r: Round, sent: seq<Envelope>, i: nat): Rank
    requires Sends(r, sent) && i < |sent|
  {
    assert Picked(SeenBy(r, sent, i), sent[i], r.now(i));
    RankIn(SeenBy(r, sent, i), sent[i].id)
  }

  ghost predicate InDueOrder(r: Round, sent: seq<Envelope>)
    requires Sends(r, sent)
  {
    forall i, j :: 0 <= i < j < |sent| ==> Before(RankOf(r, sent, i), RankOf(r, sent, j))
  }

  /** Between two calls the others made this row free or gave it another due time: they released
      it, submitted it, or set it up for another attempt. */
  predicate Freed(r: Round, sent: seq<Envelope>, i: nat, id: JobId)
    requires i + 1 < |sent|
  {
    var before, after := LeftAfter(r, sent, i + 1), SeenBy(r, sent, i + 1);
    Free(after, id) && !(Free(before, id) && RankIn(before, id) == RankIn(after, id))
  }

  /** Nothing that the others free is due before what has just been sent. */
  ghost predicate NoneOvertakes(r: Round, sent: seq<Envelope>)
    requires Sends(r, sent)
  {
    forall i, id :: 0 <= i && i + 1 < |sent| && Freed(r, sent, i, id) ==>
      Before(RankOf(r, sent, i), RankIn(SeenBy(r, sent, i + 1), id))
  }

  ghost predicate ClockForward(now: nat -> Time) {
    forall i: nat, j: nat :: i <= j ==> now(i) <= now(j)
  }

  /** A row that was free already when a message was sent comes after that message. */
  lemma AlreadyFreeComesLater(r: Round, sent: seq<Envelope>, i: nat, id: JobId)
    requires Sends(r, sent) && i + 1 < |sent|
    requires Free(SeenBy(r, sent, i + 1), id) && !Freed(r, sent, i, id)
    ensures Before(RankOf(r, sent, i), RankIn(SeenBy(r, sent, i + 1), id))
  {
    var v := SeenBy(r, sent, i);
    assert Picked(v, sent[i], r.now(i));
    assert Free(v, id) && id != sent[i].id;
  }

  lemma AdjacentInOrder(r: Round, sent: seq<Envelope>, i: nat)
    requires Sends(r, sent) && NoneOvertakes(r, sent) && i + 1 < |sent|
    ensures Before(RankOf(r, sent, i), RankOf(r, sent, i + 1))
  {
    var id := sent[i + 1].id;
    assert Picked(SeenBy(r, sent, i + 1), sent[i + 1], r.now(i + 1));
    if !Freed(r, sent, i, id) {
      AlreadyFreeComesLater(r, sent, i, id);
    }
  }

  lemma {:induction false} AllInOrder(r: Round, sent: seq<Envelope>, i: nat, j: nat)
    requires Sends(r, sent) && NoneOvertakes(r, sent) && i < j < |sent|
    ensures Before(RankOf(r, sent, i), RankOf(r, sent, j))
  {
    AdjacentInOrder(r, sent, j - 1);
    if i < j - 1 {
      AllInOrder(r, sent, i, j - 1);
    }
  }

  /** A row that overtakes is due as well, so the next call sends it or an even earlier one. */
  lemma OvertakingBreaksOrder(r: Round, sent: seq<Envelope>, i: nat, id: JobId)
    requires Sends(r, sent) && ClockForward(r.now) && i + 1 < |sent| && Freed(r, sent, i, id)
    requires !Before(RankOf(r, sent, i), RankIn(SeenBy(r, sent, i + 1), id))
    ensures !Before(RankOf(r, sent, i), RankOf(r, sent, i + 1))
  {
    assert Picked(SeenBy(r, sent, i), sent[i], r.now(i));
    assert Picked(SeenBy(r, sent, i + 1), sent[i + 1], r.now(i + 1));
    assert r.now(i) <= r.now(i + 1);
  }

  /** A round sends in order of due time and id if and only if nothing that the others release,
      submit or reschedule between two of its calls is due before the message just sent. */
  lemma DueOrderIffNoneOvertakes(r: Round, sent: seq<Envelope>)
    requires Sends(r, sent) && ClockForward(r.now)
    ensures InDueOrder(r, sent) <==> NoneOvertakes(r, sent)
  {
    if NoneOvertakes(r, sent) {
      forall i, j | 0 <= i < j < |sent| ensures Before(RankOf(r, sent, i), RankOf(r, sent, j)) {
        AllInOrder(r, sent, i, j);
      }
    } else {
      var i, id :| 0 <= i && i + 1 < |sent| && Freed(r, sent, i, id)
                   && !Before(RankOf(r, sent, i), RankIn(SeenBy(r, sent, i + 1), id));
      OvertakingBreaksOrder(r, sent, i, id);
    }
  }

  /** Whatever the others do, a message comes before every row that was free and due when it was
      sent. */
  lemma DueRowsWaitTheirTurn(r: Round, sent: seq<Envelope>, i: nat, j: nat)
    requires Sends(r, sent) && i < j < |sent|
    requires var v := SeenBy(r, sent, i); Free(v, sent[j].id) && v.rows[sent[j].id].availableAt <= r.now(i)
    ensures sent[j].id == sent[i].id || Before(RankOf(r, sent, i), RankIn(SeenBy(r, sent, i), sent[j].id))
  {
    assert Picked(SeenBy(r, sent, i), sent[i], r.now(i));
  }

  /** The order does break: another dispatcher holds the first of two due rows during the first
      call and rolls back before the second. */
  lemma ReleasedRowOvertakes() returns (r: Round, sent: seq<Envelope>)
    ensures Sends(r, sent) && ClockForward(r.now) && !InDueOrder(r, sent)
  {
    var rows: Table := map[1 := NewRow("", "a", "", "", 1, 1, 0), 2 := NewRow("", "b", "", "", 1, 1, 5)];
    r := Round(View(rows, {1}), (i: nat, v: View) => if i == 1 then v.(locked := {}) else v, i => 10);
    sent := [Envelope(2, 1), Envelope(1, 1)];
    assert SeenBy(r, sent, 0) == View(rows, {1});
    assert LeftAfter(r, sent, 1) == Committed(View(rows, {1}), sent[0]);
    assert SeenBy(r, sent, 1) == Committed(View(rows, {1}), sent[0]).(locked := {});
    assert Picked(SeenBy(r, sent, 0), sent[0], r.now(0));
    assert Picked(SeenBy(r, sent, 1), sent[1], r.now(1));
    assert !Before(RankOf(r, sent, 0), RankOf(r, sent, 1));
  }
}
