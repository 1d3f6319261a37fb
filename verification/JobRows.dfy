/** One row of the inference_jobs table and the SQL statements that act on it.

    Every statement is a guard (its WHERE clause) and an update (its SET clause). The
    statements take the timestamp that NOW() returned to them as a parameter, because
    Postgres fixes NOW() when the transaction starts, which may be well before the
    statement gets the row lock it waits for. Times are integer milliseconds. */
module JobRows {
  import opened Wrappers

  type JobId = nat
  type Time = int

  datatype Status = Queued | Active | Retrying | Completed | Failed

  datatype Row = Row(
    owner: string,
    keyHash: string,
    payloadHash: string,
    requestId: string,
    status: Status,
    attempts: nat,
    maxAttempts: nat,
    backoffMs: nat,
    response: Option<string>,
    errorCode: Option<string>,
    dispatchPending: bool,
    availableAt: Time,
    leaseUntil: Option<Time>,
    finishedAt: Option<Time>)

  /** The message that RabbitMQ carries. */
  datatype Envelope = Envelope(id: JobId, attempt: nat)

  /** What JobProcessingError tells `fail`. */
  datatype Failure = Failure(code: string, retryable: bool, retryAfterMs: nat)

  const MAX_BACKOFF_MS := 3600000
  const MAX_EXPONENT := 30
  const RETENTION_MS := 24 * 60 * 60 * 1000
  const MAX_INT32 := 2147483647

  predicate Terminal(r: Row) {
    r.status == Completed || r.status == Failed
  }

  /** Between attempts: queued for the first time or after a lost lease, or waiting to retry. */
  predicate Waiting(r: Row) {
    r.status == Queued || r.status == Retrying
  }

  // --- Retry delay -----------------------------------------------------------------

  function Min(a: int, b: int): int {
    if a <= b then a else b
  }

  function Max(a: int, b: int): int {
    if a <= b then b else a
  }

  function Pow2(n: nat): nat {
    if n == 0 then 1 else 2 * Pow2(n - 1)
  }

  /** The delay as the statement computes it: the base delay times a power of two whose exponent
      is clamped, and at most one hour. */
  function BackoffDelay(backoffMs: nat, attempts: nat): int
    requires attempts >= 1
  {
    Min(MAX_BACKOFF_MS, backoffMs * Pow2(Min(attempts - 1, MAX_EXPONENT)))
  }

  /** The delay as it is documented: start at the base delay, double, stop at one hour. */
  function DoublingDelay(backoffMs: nat, attempts: nat): int
    requires attempts >= 1
  {
    if attempts == 1 then Min(MAX_BACKOFF_MS, backoffMs)
    else Min(MAX_BACKOFF_MS, 2 * DoublingDelay(backoffMs, attempts - 1))
  }

  lemma {:induction false} Pow2Positive(n: nat)
    ensures Pow2(n) >= 1
  {
    if n > 0 {
      Pow2Positive(n - 1);
    }
  }

  lemma {:induction false} Pow2AtClamp()
    ensures Pow2(MAX_EXPONENT) > MAX_BACKOFF_MS
  {
    assert Pow2(10) == 1024;
    assert Pow2(20) == 1024 * 1024;
    assert Pow2(30) == 1024 * 1024 * 1024;
  }

  /** The unclamped formula satisfies the doubling recursion. */
  lemma {:induction false} UnclampedDoubles(backoffMs: nat, attempts: nat)
    requires attempts >= 1
    ensures Min(MAX_BACKOFF_MS, backoffMs * Pow2(attempts - 1)) == DoublingDelay(backoffMs, attempts)
  {
    if attempts > 1 {
      UnclampedDoubles(backoffMs, attempts - 1);
      assert Pow2(attempts - 1) == 2 * Pow2(attempts - 2);
      assert backoffMs * Pow2(attempts - 1) == 2 * (backoffMs * Pow2(attempts - 2));
    }
  }

  lemma MultipleAtLeast(a: nat, b: nat)
    ensures b >= 1 ==> a * b >= a
    ensures a >= 1 ==> a * b >= b
  {
  }

  /** Past the clamp the recursion has already reached the cap. */
  lemma {:induction false} DoublingSaturates(backoffMs: nat, attempts: nat)
    requires backoffMs >= 1
    requires attempts > MAX_EXPONENT
    ensures DoublingDelay(backoffMs, attempts) == MAX_BACKOFF_MS
  {
    if attempts == MAX_EXPONENT + 1 {
      UnclampedDoubles(backoffMs, attempts);
      Pow2AtClamp();
      MultipleAtLeast(backoffMs, Pow2(MAX_EXPONENT));
    } else {
      DoublingSaturates(backoffMs, attempts - 1);
    }
  }

  /** The exponent clamp in the SQL is unobservable: the column expression is the
      documented capped doubling for every attempt number. */
  lemma {:induction false} BackoffIsCappedDoubling(backoffMs: nat, attempts: nat)
    requires backoffMs >= 1 && attempts >= 1
    ensures BackoffDelay(backoffMs, attempts) == DoublingDelay(backoffMs, attempts)
    ensures 1 <= BackoffDelay(backoffMs, attempts) <= MAX_BACKOFF_MS
  {
    var factor := Pow2(Min(attempts - 1, MAX_EXPONENT));
    Pow2Positive(Min(attempts - 1, MAX_EXPONENT));
    MultipleAtLeast(backoffMs, factor);
    if attempts <= MAX_EXPONENT + 1 {
      UnclampedDoubles(backoffMs, attempts);
    } else {
      DoublingSaturates(backoffMs, attempts);
      Pow2AtClamp();
    }
  }

  // --- Statements ------------------------------------------------------------------

  /** INSERT with the column defaults. */
  function NewRow(owner: string, keyHash: string, payloadHash: string, requestId: string,
                  maxAttempts: nat, backoffMs: nat, now: Time): Row
  {
    Row(owner, keyHash, payloadHash, requestId, Queued, 0, maxAttempts, backoffMs,
        None, None, true, now, None, None)
  }

  /** The WHERE clause of the dispatcher's SELECT ... FOR UPDATE. */
  predicate Due(r: Row, now: Time) {
    r.dispatchPending && Waiting(r) && r.availableAt <= now
  }

  predicate Claimable(r: Row, attempt: nat, now: Time) {
    && Waiting(r)
    && r.attempts + 1 == attempt
    && r.attempts < r.maxAttempts
    && r.availableAt <= now
  }

  function AfterClaim(r: Row, attempt: nat, now: Time, leaseMs: nat): Row {
    r.(status := Active, attempts := attempt, leaseUntil := Some(now + leaseMs))
  }

  /** The WHERE clause shared by `complete` and `fail`. */
  predicate Running(r: Row, attempt: nat) {
    r.attempts == attempt && r.status == Active
  }

  function AfterComplete(r: Row, response: string, now: Time): Row {
    r.(status := Completed, response := Some(response), errorCode := None,
       finishedAt := Some(now), leaseUntil := None, dispatchPending := false)
  }

  function AfterFail(r: Row, f: Failure, now: Time): Row
    requires r.attempts >= 1
  {
    var again := f.retryable && r.attempts < r.maxAttempts;
    r.(status := if again then Retrying else Failed,
       dispatchPending := again,
       availableAt := now + Max(f.retryAfterMs, BackoffDelay(r.backoffMs, r.attempts)),
       errorCode := Some(f.code),
       leaseUntil := None,
       finishedAt := if again then None else Some(now))
  }

  predicate LeaseExpired(r: Row, now: Time) {
    r.status == Active && r.leaseUntil.Some? && r.leaseUntil.value < now
  }

  function AfterExpiry(r: Row, now: Time): Row {
    var again := r.attempts < r.maxAttempts;
    r.(status := if again then Queued else Failed,
       dispatchPending := again,
       availableAt := now,
       errorCode := Some("JOB_FAILED"),
       leaseUntil := None,
       finishedAt := if again then None else Some(now))
  }

  predicate PastRetention(r: Row, now: Time) {
    r.finishedAt.Some? && r.finishedAt.value < now - RETENTION_MS
  }

  // --- The table ---------------------------------------------------------------------

  type Table = map<JobId, Row>

  predicate HasKey(r: Row, owner: string, keyHash: string) {
    r.owner == owner && r.keyHash == keyHash
  }

  predicate SameKey(a: Row, b: Row) {
    HasKey(a, b.owner, b.keyHash)
  }

  predicate KeyTaken(rows: Table, owner: string, keyHash: string) {
    exists id :: id in rows && HasKey(rows[id], owner, keyHash)
  }

  /** The unique constraint: one row per owner and idempotency key. */
  predicate UniqueKeys(rows: Table) {
    forall i, j | i in rows && j in rows && SameKey(rows[i], rows[j]) :: i == j
  }

  predicate CanClaim(rows: Table, m: Envelope, now: Time) {
    m.id in rows && Claimable(rows[m.id], m.attempt, now)
  }

  /** The attempt of this message is the one its row shows as running. */
  predicate ActiveAs(rows: Table, m: Envelope) {
    m.id in rows && Running(rows[m.id], m.attempt)
  }

  function ClaimedTable(rows: Table, m: Envelope, now: Time, leaseMs: nat): Table {
    if CanClaim(rows, m, now) then rows[m.id := AfterClaim(rows[m.id], m.attempt, now, leaseMs)] else rows
  }

  function CompletedTable(rows: Table, m: Envelope, response: string, now: Time): Table {
    if ActiveAs(rows, m) then rows[m.id := AfterComplete(rows[m.id], response, now)] else rows
  }

  function FailedTable(rows: Table, m: Envelope, f: Failure, now: Time): Table
    requires m.attempt >= 1
  {
    if ActiveAs(rows, m) then rows[m.id := AfterFail(rows[m.id], f, now)] else rows
  }

  // --- Row consistency -------------------------------------------------------------

  /** What every stored row satisfies; the CHECK constraints are the first line. */
  predicate RowOk(r: Row) {
    && r.maxAttempts >= 1 && r.backoffMs >= 1 && r.maxAttempts <= MAX_INT32
    && r.attempts <= r.maxAttempts
    && (Waiting(r) ==> r.attempts < r.maxAttempts)
    && (r.status == Active ==> r.attempts >= 1)
    && (r.status == Active <==> r.leaseUntil.Some?)
    && (Terminal(r) <==> r.finishedAt.Some?)
    && (Terminal(r) ==> !r.dispatchPending && r.attempts >= 1)
    && (r.status == Completed <==> r.response.Some?)
    && (r.status == Retrying ==> r.errorCode.Some?)
    && (r.status == Failed ==> r.errorCode.Some?)
  }

  /** Work left for a row: two per unused attempt, plus one while an attempt runs. */
  function WorkLeft(r: Row): int {
    2 * (r.maxAttempts - r.attempts) + (if r.status == Active then 1 else 0)
  }
}
