/** The durable job protocol as a labelled transition system: the job table, the
    dispatchers' open transactions, the broker queue and the message handlers of all
    workers, interleaved one SQL statement or one broker event at a time.

    A handler is one invocation of RabbitMqBroker.handle. It is `attached` while the broker
    still holds its delivery as unacknowledged. A lost connection detaches it and puts the
    message back in the queue, but the handler may go on running and writing to Postgres. */
module JobProtocol {
  import opened JobRows

  /** What `execute` asks the broker to do with the delivery. */
  datatype Action = Ack | DeadLetter

  datatype Phase =
    | Received                                  // delivered, claim not yet applied
    | Executing(claimedAt: Time)                // claim succeeded, processor running
    | Decided(action: Action, claimant: bool)   // outcome persisted, not yet acknowledged
    | Stuck                                     // threw: never acknowledges

  datatype Handler = Handler(msg: Envelope, since: Time, attached: bool, phase: Phase)

  /** A dispatcher transaction holds the row lock from SELECT to COMMIT or ROLLBACK. */
  datatype Stage = Locked | Sent | Stored
  datatype Dispatch = Dispatch(msg: Envelope, stage: Stage)

  datatype State = State(
    leaseMs: nat,
    clock: Time,
    issued: set<JobId>,                // every job id ever generated
    rows: Table,
    dispatches: map<nat, Dispatch>,
    ready: multiset<Envelope>,         // stored in the queue
    late: multiset<Envelope>,          // sent, transaction rolled back, may still arrive
    handlers: map<nat, Handler>)

  datatype Label =
    | Tick(time: Time)
    | Enqueue(id: JobId, row: Row)
    | LockDue(tx: nat, id: JobId, now: Time)
    | Send(tx: nat)
    | Store(tx: nat)
    | Commit(tx: nat)
    | Rollback(tx: nat)
    | StoreLate(m: Envelope)
    | DropLate(m: Envelope)
    | Deliver(h: nat, m: Envelope)
    | Claim(h: nat, now: Time)
    | Complete(h: nat, response: string, now: Time)
    | Fail(h: nat, failure: Failure, now: Time)
    | Settle(h: nat)
    | Abandon(h: nat)
    | Requeue(h: nat)
    | Vanish(h: nat)
    | Expire(id: JobId, now: Time)
    | Delete(id: JobId, now: Time)

  function Init(leaseMs: nat, clock: Time): State {
    State(leaseMs, clock, {}, map[], map[], multiset{}, multiset{}, map[])
  }

  predicate Unlocked(s: State, id: JobId) {
    forall tx :: tx in s.dispatches ==> s.dispatches[tx].msg.id != id
  }

  /** A statement on row `id` runs with a timestamp taken no later than now, and only when
      no dispatcher holds the row. */
  predicate MayWrite(s: State, id: JobId, now: Time) {
    Unlocked(s, id) && now <= s.clock
  }

  predicate InPhase(s: State, h: nat, executing: bool) {
    && h in s.handlers
    && (if executing then s.handlers[h].phase.Executing? else s.handlers[h].phase.Received?)
  }

  predicate Enabled(s: State, l: Label) {
    match l
    case Tick(time) => s.clock <= time
    case Enqueue(id, r) =>
      && id !in s.issued
      && !KeyTaken(s.rows, r.owner, r.keyHash)
      && 1 <= r.maxAttempts <= MAX_INT32 && r.backoffMs >= 1
      && r.availableAt <= s.clock
      && r == NewRow(r.owner, r.keyHash, r.payloadHash, r.requestId,
                     r.maxAttempts, r.backoffMs, r.availableAt)
    case LockDue(tx, id, now) =>
      tx !in s.dispatches && MayWrite(s, id, now) && id in s.rows && Due(s.rows[id], now)
    case Send(tx) => tx in s.dispatches && s.dispatches[tx].stage == Locked
    case Store(tx) => tx in s.dispatches && s.dispatches[tx].stage == Sent
    case Commit(tx) =>
      && tx in s.dispatches && s.dispatches[tx].stage == Stored
      && s.dispatches[tx].msg.id in s.rows
    case Rollback(tx) => tx in s.dispatches
    case StoreLate(m) => m in s.late
    case DropLate(m) => m in s.late
    case Deliver(h, m) => h !in s.handlers && m in s.ready
    case Claim(h, now) =>
      && InPhase(s, h, false)
      && MayWrite(s, s.handlers[h].msg.id, now) && s.handlers[h].since <= now
    case Complete(h, _, now) =>
      InPhase(s, h, true) && MayWrite(s, s.handlers[h].msg.id, now)
    case Fail(h, _, now) =>
      && InPhase(s, h, true) && MayWrite(s, s.handlers[h].msg.id, now)
      && s.handlers[h].msg.attempt >= 1   // isJobEnvelope rejects anything else
    case Settle(h) => h in s.handlers && s.handlers[h].phase.Decided?
    case Abandon(h) => h in s.handlers
    case Requeue(h) => h in s.handlers && s.handlers[h].attached
    case Vanish(h) => h in s.handlers && !s.handlers[h].attached
    case Expire(id, now) => MayWrite(s, id, now) && id in s.rows && LeaseExpired(s.rows[id], now)
    case Delete(id, now) => MayWrite(s, id, now) && id in s.rows && PastRetention(s.rows[id], now)
  }

  function WithStage(s: State, tx: nat, stage: Stage): State
    requires tx in s.dispatches
  {
    s.(dispatches := s.dispatches[tx := s.dispatches[tx].(stage := stage)])
  }

  function WithPhase(s: State, h: nat, phase: Phase): State
    requires h in s.handlers
  {
    s.(handlers := s.handlers[h := s.handlers[h].(phase := phase)])
  }

  function WithRow(s: State, id: JobId, r: Row): State {
    s.(rows := s.rows[id := r])
  }

  /** Steps of a dispatcher's transaction. */
  predicate OfDispatcher(l: Label) {
    l.LockDue? || l.Send? || l.Store? || l.Commit? || l.Rollback?
  }

  /** A handler's statements on the table. */
  predicate OfAttempt(l: Label) {
    l.Claim? || l.Complete? || l.Fail?
  }

  /** The fate of a delivery and its handler. */
  predicate OfDelivery(l: Label) {
    l.Deliver? || l.Settle? || l.Abandon? || l.Requeue? || l.Vanish?
  }

  predicate OfHandler(l: Label) {
    OfAttempt(l) || OfDelivery(l)
  }

  function NextDispatch(s: State, l: Label): State
    requires Enabled(s, l) && OfDispatcher(l)
  {
    match l
    case LockDue(tx, id, _) =>
      s.(dispatches := s.dispatches[tx := Dispatch(Envelope(id, s.rows[id].attempts + 1), Locked)])
    case Send(tx) => WithStage(s, tx, Sent)
    case Store(tx) =>
      // the broker stores the message; the confirm is still on its way back
      WithStage(s, tx, Stored).(ready := s.ready + multiset{s.dispatches[tx].msg})
    case Commit(tx) =>
      var id := s.dispatches[tx].msg.id;
      s.(rows := s.rows[id := s.rows[id].(dispatchPending := false)], dispatches := s.dispatches - {tx})
    case Rollback(tx) =>
      // a timed-out publication may still reach the broker afterwards
      s.(dispatches := s.dispatches - {tx},
         late := if s.dispatches[tx].stage == Sent
                 then s.late + multiset{s.dispatches[tx].msg} else s.late)
  }

  /** A delivery is dead-lettered when its failure is the one that failed the job for good. */
  function FailAction(rows: Table, m: Envelope, f: Failure): Action {
    if ActiveAs(rows, m) && !(f.retryable && m.attempt < rows[m.id].maxAttempts) then DeadLetter else Ack
  }

  function NextAttempt(s: State, l: Label): State
    requires Enabled(s, l) && OfAttempt(l)
  {
    var m := s.handlers[l.h].msg;
    match l
    case Claim(h, now) =>
      WithPhase(s.(rows := ClaimedTable(s.rows, m, now, s.leaseMs)), h,
                if CanClaim(s.rows, m, now) then Executing(now) else Decided(Ack, false))
    case Complete(h, response, now) =>
      WithPhase(s.(rows := CompletedTable(s.rows, m, response, now)), h, Decided(Ack, true))
    case Fail(h, f, now) =>
      WithPhase(s.(rows := FailedTable(s.rows, m, f, now)), h, Decided(FailAction(s.rows, m, f), true))
  }

  function NextDelivery(s: State, l: Label): State
    requires Enabled(s, l) && OfDelivery(l)
  {
    match l
    case Deliver(h, m) =>
      s.(ready := s.ready - multiset{m},
         handlers := s.handlers[h := Handler(m, s.clock, true, Received)])
    case Settle(h) => s.(handlers := s.handlers - {h})   // acked or rejected: the message is gone
    case Abandon(h) => WithPhase(s, h, Stuck)
    case Requeue(h) =>
      s.(ready := s.ready + multiset{s.handlers[h].msg},
         handlers := s.handlers[h := s.handlers[h].(attached := false)])
    case Vanish(h) => s.(handlers := s.handlers - {h})
  }

  /** The clock, submissions, late publications and maintenance. */
  function NextOther(s: State, l: Label): State
    requires Enabled(s, l) && !OfDispatcher(l) && !OfHandler(l)
  {
    match l
    case Tick(time) => s.(clock := time)
    case Enqueue(id, r) => s.(issued := s.issued + {id}, rows := s.rows[id := r])
    case StoreLate(m) => s.(late := s.late - multiset{m}, ready := s.ready + multiset{m})
    case DropLate(m) => s.(late := s.late - multiset{m})
    case Expire(id, now) => WithRow(s, id, AfterExpiry(s.rows[id], now))
    case Delete(id, _) => s.(rows := s.rows - {id})
  }

  function Next(s: State, l: Label): State
    requires Enabled(s, l)
  {
    if OfDispatcher(l) then NextDispatch(s, l)
    else if OfAttempt(l) then NextAttempt(s, l)
    else if OfDelivery(l) then NextDelivery(s, l)
    else NextOther(s, l)
  }

  // --- Runs --------------------------------------------------------------------------

  predicate IsRun(s: State, ls: seq<Label>)
    decreases ls
  {
    ls == [] || (Enabled(s, ls[0]) && IsRun(Next(s, ls[0]), ls[1..]))
  }

  function After(s: State, ls: seq<Label>): State
    requires IsRun(s, ls)
    decreases ls
  {
    if ls == [] then s else After(Next(s, ls[0]), ls[1..])
  }

  // --- Invariant ---------------------------------------------------------------------

  /** A message never runs ahead of its row, and one for the next attempt is claimable. */
  predicate MessageOk(s: State, m: Envelope) {
    && m.id in s.issued
    && 1 <= m.attempt <= MAX_INT32
    && (m.id in s.rows ==> m.attempt <= s.rows[m.id].attempts + 1)
    && (m.id in s.rows && m.attempt == s.rows[m.id].attempts + 1 ==>
          Waiting(s.rows[m.id]) && s.rows[m.id].availableAt <= s.clock)
  }

  /** The attempt is over: its row is gone, moved on, or no longer active. */
  predicate Over(s: State, m: Envelope) {
    m.id in s.issued &&
    (m.id in s.rows ==>
      s.rows[m.id].attempts > m.attempt
      || (s.rows[m.id].attempts == m.attempt && s.rows[m.id].status != Active))
  }

  predicate HandlerOk(s: State, w: Handler) {
    && MessageOk(s, w.msg)
    && w.since <= s.clock
    && (w.phase.Received? && w.msg.id in s.rows && w.msg.attempt == s.rows[w.msg.id].attempts + 1 ==>
          s.rows[w.msg.id].availableAt <= w.since)
    && ((w.phase.Executing? || w.phase.Decided?) && w.msg.id in s.rows ==>
          w.msg.attempt <= s.rows[w.msg.id].attempts)
    && (w.phase.Decided? && w.phase.claimant ==> Over(s, w.msg))
    && (w.phase.Decided? && w.phase.action == DeadLetter && w.msg.id in s.rows ==>
          s.rows[w.msg.id].status == Failed)
  }

  /** A copy of the message is queued or held unacknowledged by some handler. */
  predicate Covered(s: State, m: Envelope) {
    m in s.ready || exists h :: h in s.handlers && s.handlers[h].attached && s.handlers[h].msg == m
  }

  predicate DispatchOk(s: State, d: Dispatch) {
    && MessageOk(s, d.msg)
    && d.msg.id in s.rows
    && d.msg.attempt == s.rows[d.msg.id].attempts + 1
    && s.rows[d.msg.id].dispatchPending
    && (d.stage == Stored ==> Covered(s, d.msg))
  }

  predicate RowsOk(s: State) {
    forall id :: id in s.rows ==> id in s.issued && RowOk(s.rows[id])
  }

  predicate MessagesOk(s: State) {
    (forall m :: m in s.ready ==> MessageOk(s, m)) && (forall m :: m in s.late ==> MessageOk(s, m))
  }

  predicate HandlersOk(s: State) {
    forall h :: h in s.handlers ==> HandlerOk(s, s.handlers[h])
  }

  predicate DispatchesOk(s: State) {
    && (forall tx :: tx in s.dispatches ==> DispatchOk(s, s.dispatches[tx]))
    && (forall t, u | t in s.dispatches && u in s.dispatches
          && s.dispatches[t].msg.id == s.dispatches[u].msg.id :: t == u)
  }

  /** A row that still needs work has something that will move it on: a lease that
      maintenance reclaims, a pending publication, or a message for its next attempt. */
  predicate Safe(s: State, id: JobId)
    requires id in s.rows
  {
    var r := s.rows[id];
    || Terminal(r)
    || (r.status == Active && r.leaseUntil.Some?)
    || r.dispatchPending
    || Covered(s, Envelope(id, r.attempts + 1))
  }

  predicate NoJobLost(s: State) {
    forall id :: id in s.rows ==> Safe(s, id)
  }

  predicate Inv(s: State) {
    RowsOk(s) && UniqueKeys(s.rows) && MessagesOk(s) && HandlersOk(s) && DispatchesOk(s) && NoJobLost(s)
  }
}
