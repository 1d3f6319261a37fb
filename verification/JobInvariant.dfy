/** Every step of the job protocol keeps the invariant, so every reachable state has it. */
module JobInvariant {
  import opened JobRows
  import opened JobProtocol

  // --- How a step may change the table --------------------------------------------------

  /** Attempts never go back; a row leaves an attempt number only through a claim, which changes
      status, attempts and lease alone; until then a waiting row keeps all columns and is not made
      pending again; a terminal row is frozen; an attempt that stopped running never runs again. */
  predicate RowEvolves(r: Row, r': Row) {
    && SameKey(r, r') && r.payloadHash == r'.payloadHash && r.requestId == r'.requestId
    && r.maxAttempts == r'.maxAttempts && r.backoffMs == r'.backoffMs
    && r.attempts <= r'.attempts <= r.attempts + 1
    && (r.attempts < r'.attempts ==>
          Waiting(r) && r' == r.(status := Active, attempts := r'.attempts, leaseUntil := r'.leaseUntil))
    && (r.attempts == r'.attempts && Waiting(r) ==>
          r' == r.(dispatchPending := r'.dispatchPending) && (r'.dispatchPending ==> r.dispatchPending))
    && (Terminal(r) ==> r' == r)
  }

  predicate Evolves(s: State, t: State) {
    && s.clock <= t.clock && s.issued <= t.issued
    && (forall id :: id in t.rows && id in s.rows ==> RowEvolves(s.rows[id], t.rows[id]))
    && (forall id :: id in t.rows && id !in s.rows ==> id !in s.issued)
  }

  // Which parts of the state a step can touch at all.

  lemma DispatcherFrame(s: State, l: Label)
    requires Enabled(s, l) && OfDispatcher(l)
    ensures var t := Next(s, l);
            t.handlers == s.handlers && t.issued == s.issued && t.clock == s.clock && t.leaseMs == s.leaseMs
    ensures !l.Commit? ==> Next(s, l).rows == s.rows
  {
  }

  lemma AttemptFrame(s: State, l: Label)
    requires Enabled(s, l) && OfAttempt(l)
    ensures var t := Next(s, l);
            && t.dispatches == s.dispatches && t.late == s.late && t.ready == s.ready
            && t.issued == s.issued && t.clock == s.clock && t.leaseMs == s.leaseMs
    ensures forall id :: id != s.handlers[l.h].msg.id ==> SameRow(s, Next(s, l), id)
    ensures exists phase :: Next(s, l).handlers == s.handlers[l.h := s.handlers[l.h].(phase := phase)]
  {
    assert Next(s, l).handlers == s.handlers[l.h := s.handlers[l.h].(phase := Next(s, l).handlers[l.h].phase)];
  }

  lemma DeliveryFrame(s: State, l: Label)
    requires Enabled(s, l) && OfDelivery(l)
    ensures var t := Next(s, l);
            && t.dispatches == s.dispatches && t.late == s.late && t.rows == s.rows
            && t.issued == s.issued && t.clock == s.clock && t.leaseMs == s.leaseMs
  {
    assert Next(s, l) == NextDelivery(s, l);
    match l {
      case Deliver(_, _) =>
      case Settle(_) =>
      case Abandon(_) =>
      case Requeue(_) =>
      case Vanish(_) =>
    }
  }

  lemma HandlerFrame(s: State, l: Label)
    requires Enabled(s, l) && OfHandler(l)
    ensures var t := Next(s, l);
            && t.dispatches == s.dispatches && t.late == s.late
            && t.issued == s.issued && t.clock == s.clock && t.leaseMs == s.leaseMs
  {
    if OfAttempt(l) {
      AttemptFrame(s, l);
    } else {
      DeliveryFrame(s, l);
    }
  }

  lemma OtherFrame(s: State, l: Label)
    requires Enabled(s, l) && !OfDispatcher(l) && !OfHandler(l)
    ensures var t := Next(s, l);
            t.dispatches == s.dispatches && t.handlers == s.handlers && t.leaseMs == s.leaseMs
  {
  }

  /** The row a step writes, if any. */
  predicate Writes(s: State, l: Label, id: JobId)
    requires Enabled(s, l)
  {
    match l
    case Enqueue(i, _) => i == id
    case Commit(tx) => s.dispatches[tx].msg.id == id
    case Claim(h, _) => s.handlers[h].msg.id == id
    case Complete(h, _, _) => s.handlers[h].msg.id == id
    case Fail(h, _, _) => s.handlers[h].msg.id == id
    case Expire(i, _) => i == id
    case Delete(i, _) => i == id
    case _ => false
  }

  predicate SameRow(s: State, t: State, id: JobId) {
    (id in t.rows <==> id in s.rows) && (id in s.rows ==> t.rows[id] == s.rows[id])
  }

  lemma UnwrittenRowSame(s: State, l: Label, id: JobId)
    requires Enabled(s, l) && !Writes(s, l, id)
    ensures SameRow(s, Next(s, l), id)
  {
    if OfAttempt(l) {
      AttemptFrame(s, l);
    } else if OfDelivery(l) {
      DeliveryFrame(s, l);
    } else if OfDispatcher(l) {
      DispatcherFrame(s, l);
    }
  }

  /** Each statement's SET clause keeps a row consistent and only moves it forward. */
  lemma StatementsAdvance(r: Row, attempt: nat, f: Failure, response: string, now: Time, leaseMs: nat)
    requires RowOk(r)
    ensures Claimable(r, attempt, now) ==>
              var r' := AfterClaim(r, attempt, now, leaseMs); RowOk(r') && RowEvolves(r, r')
    ensures Running(r, attempt) ==>
              var r' := AfterComplete(r, response, now); RowOk(r') && RowEvolves(r, r')
    ensures Running(r, attempt) ==> var r' := AfterFail(r, f, now); RowOk(r') && RowEvolves(r, r')
    ensures LeaseExpired(r, now) ==> var r' := AfterExpiry(r, now); RowOk(r') && RowEvolves(r, r')
    ensures Waiting(r) ==> var r' := r.(dispatchPending := false); RowOk(r') && RowEvolves(r, r')
  {
  }

  /** The row after a step that writes it: still consistent, and moved forward. */
  predicate Advanced(s: State, t: State, id: JobId) {
    id in s.rows && id in t.rows ==> RowOk(t.rows[id]) && RowEvolves(s.rows[id], t.rows[id])
  }

  lemma HandlerAdvances(s: State, l: Label)
    requires RowsOk(s) && Enabled(s, l) && (l.Claim? || l.Complete? || l.Fail?)
    ensures var id := s.handlers[l.h].msg.id;
            (id in Next(s, l).rows <==> id in s.rows) && Advanced(s, Next(s, l), id)
  {
    var m := s.handlers[l.h].msg;
    if m.id in s.rows {
      var f := if l.Fail? then l.failure else Failure("", false, 0);
      var response := if l.Complete? then l.response else "";
      StatementsAdvance(s.rows[m.id], m.attempt, f, response, l.now, s.leaseMs);
    }
  }

  lemma CommitAdvances(s: State, l: Label)
    requires RowsOk(s) && DispatchesOk(s) && Enabled(s, l) && l.Commit?
    ensures var id := s.dispatches[l.tx].msg.id;
            id in s.rows && id in Next(s, l).rows && Advanced(s, Next(s, l), id)
  {
    assert DispatchOk(s, s.dispatches[l.tx]);
    StatementsAdvance(s.rows[s.dispatches[l.tx].msg.id], 0, Failure("", false, 0), "", 0, 0);
  }

  lemma ExpiryAdvances(s: State, l: Label)
    requires RowsOk(s) && Enabled(s, l) && l.Expire?
    ensures l.id in Next(s, l).rows && Advanced(s, Next(s, l), l.id)
  {
    StatementsAdvance(s.rows[l.id], 0, Failure("", false, 0), "", l.now, 0);
  }

  lemma RowAdvances(s: State, l: Label, id: JobId)
    requires RowsOk(s) && DispatchesOk(s) && Enabled(s, l)
    ensures Advanced(s, Next(s, l), id)
    ensures id in Next(s, l).rows && id !in s.rows ==> l.Enqueue? && l.id == id
  {
    if !Writes(s, l, id) {
      UnwrittenRowSame(s, l, id);
    } else if l.Commit? {
      CommitAdvances(s, l);
    } else if l.Expire? {
      ExpiryAdvances(s, l);
    } else if OfHandler(l) {
      HandlerAdvances(s, l);
    }
  }

  lemma StepEvolves(s: State, l: Label)
    requires RowsOk(s) && DispatchesOk(s) && Enabled(s, l)
    ensures Evolves(s, Next(s, l))
  {
    var t := Next(s, l);
    forall id | id in t.rows
      ensures id in s.rows ==> RowEvolves(s.rows[id], t.rows[id])
      ensures id !in s.rows ==> id !in s.issued
    {
      RowAdvances(s, l, id);
    }
    if OfDispatcher(l) {
      DispatcherFrame(s, l);
    } else if OfHandler(l) {
      HandlerFrame(s, l);
    }
  }

  // --- What evolution preserves ---------------------------------------------------------

  lemma MessageEvolves(s: State, t: State, m: Envelope)
    requires Evolves(s, t) && MessageOk(s, m)
    ensures MessageOk(t, m)
  {
    if m.id in t.rows && m.id in s.rows {
      assert RowEvolves(s.rows[m.id], t.rows[m.id]);
    }
  }

  lemma OverEvolves(s: State, t: State, m: Envelope)
    requires Evolves(s, t) && Over(s, m)
    ensures Over(t, m)
  {
    if m.id in t.rows && m.id in s.rows {
      assert RowEvolves(s.rows[m.id], t.rows[m.id]);
    }
  }

  lemma HandlerEvolves(s: State, t: State, w: Handler)
    requires Evolves(s, t) && HandlerOk(s, w)
    ensures HandlerOk(t, w)
  {
    MessageEvolves(s, t, w.msg);
    if w.phase.Decided? && w.phase.claimant {
      OverEvolves(s, t, w.msg);
    }
    if w.msg.id in t.rows && w.msg.id in s.rows {
      assert RowEvolves(s.rows[w.msg.id], t.rows[w.msg.id]);
    }
  }

  // --- Rows -----------------------------------------------------------------------------

  lemma RowsKept(s: State, l: Label)
    requires RowsOk(s) && DispatchesOk(s) && Enabled(s, l)
    ensures RowsOk(Next(s, l))
  {
    var t := Next(s, l);
    StepEvolves(s, l);
    forall id | id in t.rows ensures id in t.issued && RowOk(t.rows[id]) {
      RowAdvances(s, l, id);
    }
  }

  lemma EnqueueKeepsKeys(s: State, l: Label)
    requires UniqueKeys(s.rows) && Enabled(s, l) && l.Enqueue?
    ensures UniqueKeys(Next(s, l).rows)
  {
  }

  lemma KeysKept(s: State, l: Label)
    requires RowsOk(s) && DispatchesOk(s) && UniqueKeys(s.rows) && Enabled(s, l)
    ensures UniqueKeys(Next(s, l).rows)
  {
    if l.Enqueue? {
      EnqueueKeepsKeys(s, l);
    } else {
      var t := Next(s, l);
      forall i, j | i in t.rows && j in t.rows && SameKey(t.rows[i], t.rows[j]) ensures i == j {
        RowAdvances(s, l, i);
        RowAdvances(s, l, j);
        assert SameKey(s.rows[i], s.rows[j]);
      }
    }
  }

  // --- Messages and handlers --------------------------------------------------------------

  predicate Somewhere(s: State, m: Envelope) {
    || m in s.ready || m in s.late
    || (exists tx :: tx in s.dispatches && s.dispatches[tx].msg == m)
    || (exists h :: h in s.handlers && s.handlers[h].msg == m)
  }

  lemma DispatcherMessages(s: State, l: Label, m: Envelope)
    requires Enabled(s, l) && OfDispatcher(l) && (m in Next(s, l).ready || m in Next(s, l).late)
    ensures Somewhere(s, m)
  {
  }

  lemma DeliveryMessages(s: State, l: Label, m: Envelope)
    requires Enabled(s, l) && OfDelivery(l) && m in Next(s, l).ready
    ensures Somewhere(s, m)
  {
  }

  /** Every queued or late message was already somewhere in the system. */
  lemma MessageOrigin(s: State, l: Label, m: Envelope)
    requires Enabled(s, l) && (m in Next(s, l).ready || m in Next(s, l).late)
    ensures Somewhere(s, m)
  {
    if OfDispatcher(l) {
      DispatcherMessages(s, l, m);
    } else if OfAttempt(l) {
      AttemptFrame(s, l);
    } else if OfDelivery(l) {
      DeliveryFrame(s, l);
      if m in Next(s, l).ready {
        DeliveryMessages(s, l, m);
      }
    }
  }

  lemma MessagesKept(s: State, l: Label)
    requires RowsOk(s) && DispatchesOk(s) && MessagesOk(s) && HandlersOk(s) && Enabled(s, l)
    ensures MessagesOk(Next(s, l))
  {
    var t := Next(s, l);
    StepEvolves(s, l);
    forall m | m in t.ready || m in t.late ensures MessageOk(t, m) {
      MessageOrigin(s, l, m);
      MessageEvolves(s, t, m);
    }
  }

  /** Claiming: a success starts the attempt the row now counts; a refusal means that the
      row is gone or has already reached this attempt. */
  lemma ClaimingHandlerOk(s: State, l: Label)
    requires RowsOk(s) && HandlersOk(s) && Enabled(s, l) && l.Claim? && Evolves(s, Next(s, l))
    ensures HandlerOk(Next(s, l), Next(s, l).handlers[l.h])
  {
    var w := s.handlers[l.h];
    assert HandlerOk(s, w);
    MessageEvolves(s, Next(s, l), w.msg);
    if w.msg.id in s.rows && !Claimable(s.rows[w.msg.id], w.msg.attempt, l.now) {
      assert RowOk(s.rows[w.msg.id]);
      assert w.msg.attempt <= s.rows[w.msg.id].attempts;
    }
  }

  /** Persisting an outcome: afterwards the attempt is over, whether or not the update hit. */
  lemma FinishingHandlerOk(s: State, l: Label)
    requires RowsOk(s) && HandlersOk(s) && Enabled(s, l) && (l.Complete? || l.Fail?)
    requires Evolves(s, Next(s, l))
    ensures HandlerOk(Next(s, l), Next(s, l).handlers[l.h])
  {
    var w := s.handlers[l.h];
    assert HandlerOk(s, w);
    MessageEvolves(s, Next(s, l), w.msg);
  }

  /** Receiving, giving up and losing the connection write no row. */
  lemma PassiveHandlerOk(s: State, l: Label)
    requires MessagesOk(s) && HandlersOk(s) && Enabled(s, l) && (l.Deliver? || l.Abandon? || l.Requeue?)
    ensures HandlerOk(Next(s, l), Next(s, l).handlers[l.h])
  {
    if l.Deliver? {
      assert MessageOk(s, l.m);
    } else {
      assert HandlerOk(s, s.handlers[l.h]);
    }
  }

  predicate ActsOn(l: Label, h: nat) {
    (l.Deliver? || l.Claim? || l.Complete? || l.Fail? || l.Abandon? || l.Requeue?) && l.h == h
  }

  lemma DeliveryTouchesOne(s: State, l: Label, h: nat)
    requires Enabled(s, l) && OfDelivery(l) && h in Next(s, l).handlers && !ActsOn(l, h)
    ensures h in s.handlers && Next(s, l).handlers[h] == s.handlers[h]
  {
  }

  lemma OtherHandlersSame(s: State, l: Label, h: nat)
    requires Enabled(s, l) && h in Next(s, l).handlers && !ActsOn(l, h)
    ensures h in s.handlers && Next(s, l).handlers[h] == s.handlers[h]
  {
    if OfAttempt(l) {
      AttemptFrame(s, l);
    } else if OfDelivery(l) {
      DeliveryTouchesOne(s, l, h);
    } else if OfDispatcher(l) {
      DispatcherFrame(s, l);
    } else {
      OtherFrame(s, l);
    }
  }

  lemma HandlersKept(s: State, l: Label)
    requires RowsOk(s) && DispatchesOk(s) && MessagesOk(s) && HandlersOk(s) && Enabled(s, l)
    ensures HandlersOk(Next(s, l))
  {
    var t := Next(s, l);
    StepEvolves(s, l);
    forall h | h in t.handlers ensures HandlerOk(t, t.handlers[h]) {
      if !ActsOn(l, h) {
        OtherHandlersSame(s, l, h);
        HandlerEvolves(s, t, s.handlers[h]);
      } else if l.Claim? {
        ClaimingHandlerOk(s, l);
      } else if l.Complete? || l.Fail? {
        FinishingHandlerOk(s, l);
      } else {
        PassiveHandlerOk(s, l);
      }
    }
  }

  // --- Dispatch transactions ----------------------------------------------------------------

  lemma ReadyCopyKept(s: State, l: Label, m: Envelope)
    requires Enabled(s, l) && m in s.ready && !(l.Deliver? && l.m == m)
    ensures m in Next(s, l).ready
  {
    if OfAttempt(l) {
      AttemptFrame(s, l);
    }
  }

  lemma DeliveryKeepsCopy(s: State, l: Label, h: nat)
    requires Enabled(s, l) && OfDelivery(l) && h in s.handlers && s.handlers[h].attached
    requires l != Settle(h) && l != Requeue(h)
    ensures h in Next(s, l).handlers
    ensures Next(s, l).handlers[h].attached && Next(s, l).handlers[h].msg == s.handlers[h].msg
  {
  }

  lemma HeldCopyKept(s: State, l: Label, h: nat)
    requires Enabled(s, l) && h in s.handlers && s.handlers[h].attached
    requires l != Settle(h) && l != Requeue(h)
    ensures h in Next(s, l).handlers
    ensures Next(s, l).handlers[h].attached && Next(s, l).handlers[h].msg == s.handlers[h].msg
  {
    if OfAttempt(l) {
      AttemptFrame(s, l);
    } else if OfDelivery(l) {
      DeliveryKeepsCopy(s, l, h);
    } else if OfDispatcher(l) {
      DispatcherFrame(s, l);
    } else {
      OtherFrame(s, l);
    }
  }

  /** Copies of a message are lost only when a decided handler settles. */
  lemma CoveredUnlessSettled(s: State, l: Label, m: Envelope)
    requires Enabled(s, l) && Covered(s, m)
    requires l.Settle? ==> s.handlers[l.h].msg != m
    ensures Covered(Next(s, l), m)
  {
    if m in s.ready {
      if l.Deliver? && l.m == m {
        assert Next(s, l).handlers[l.h] == Handler(m, s.clock, true, Received);
      } else {
        ReadyCopyKept(s, l, m);
      }
    } else {
      var h :| h in s.handlers && s.handlers[h].attached && s.handlers[h].msg == m;
      if l == Requeue(h) {
        assert m in Next(s, l).ready;
      } else {
        HeldCopyKept(s, l, h);
      }
    }
  }

  /** A settling handler never holds the message for a row's next attempt. */
  lemma SettledIsNotNeeded(s: State, l: Label, id: JobId)
    requires HandlersOk(s) && Enabled(s, l) && l.Settle? && id in s.rows
    ensures s.handlers[l.h].msg != Envelope(id, s.rows[id].attempts + 1)
  {
    assert HandlerOk(s, s.handlers[l.h]);
  }

  lemma OwnDispatchFrame(s: State, l: Label, tx: nat)
    requires Enabled(s, l) && OfDispatcher(l) && tx in Next(s, l).dispatches
    ensures tx !in s.dispatches ==> l.LockDue? && l.tx == tx
    ensures tx in s.dispatches ==> Next(s, l).dispatches[tx].msg == s.dispatches[tx].msg && l != Commit(tx)
    ensures tx in s.dispatches && Next(s, l).dispatches[tx].stage == Stored ==>
              s.dispatches[tx].stage == Stored || l == Store(tx)
  {
  }

  lemma DispatchFrame(s: State, l: Label, tx: nat)
    requires Enabled(s, l) && tx in Next(s, l).dispatches
    ensures tx !in s.dispatches ==> l.LockDue? && l.tx == tx
    ensures tx in s.dispatches ==> Next(s, l).dispatches[tx].msg == s.dispatches[tx].msg && l != Commit(tx)
    ensures tx in s.dispatches && Next(s, l).dispatches[tx].stage == Stored ==>
              s.dispatches[tx].stage == Stored || l == Store(tx)
  {
    if OfDispatcher(l) {
      OwnDispatchFrame(s, l, tx);
    } else if OfHandler(l) {
      HandlerFrame(s, l);
    } else {
      OtherFrame(s, l);
    }
  }

  /** While a dispatcher holds a row, no step of anyone else writes it. */
  lemma LockedRowUntouched(s: State, l: Label, tx: nat)
    requires DispatchesOk(s) && RowsOk(s) && Enabled(s, l)
    requires tx in s.dispatches && l != Commit(tx)
    ensures !Writes(s, l, s.dispatches[tx].msg.id)
  {
    assert DispatchOk(s, s.dispatches[tx]);
  }

  /** A stored message that is still to be committed keeps a copy. */
  lemma StoredStaysCovered(s: State, l: Label, tx: nat)
    requires DispatchesOk(s) && HandlersOk(s) && Enabled(s, l)
    requires tx in s.dispatches && tx in Next(s, l).dispatches && Next(s, l).dispatches[tx].stage == Stored
    ensures Covered(Next(s, l), s.dispatches[tx].msg)
  {
    var d := s.dispatches[tx];
    assert DispatchOk(s, d);
    if d.stage == Stored {
      if l.Settle? {
        SettledIsNotNeeded(s, l, d.msg.id);
      }
      CoveredUnlessSettled(s, l, d.msg);
    } else {
      DispatchFrame(s, l, tx);
      assert d.msg in Next(s, l).ready;
    }
  }

  lemma HeldDispatchKept(s: State, l: Label, tx: nat)
    requires RowsOk(s) && DispatchesOk(s) && HandlersOk(s) && Enabled(s, l) && Evolves(s, Next(s, l))
    requires tx in s.dispatches && tx in Next(s, l).dispatches
    ensures DispatchOk(Next(s, l), Next(s, l).dispatches[tx])
  {
    var d := s.dispatches[tx];
    assert DispatchOk(s, d);
    DispatchFrame(s, l, tx);
    LockedRowUntouched(s, l, tx);
    UnwrittenRowSame(s, l, d.msg.id);
    MessageEvolves(s, Next(s, l), d.msg);
    if Next(s, l).dispatches[tx].stage == Stored {
      StoredStaysCovered(s, l, tx);
    }
  }

  lemma NewDispatchOk(s: State, l: Label)
    requires RowsOk(s) && Enabled(s, l) && l.LockDue?
    ensures DispatchOk(Next(s, l), Next(s, l).dispatches[l.tx])
  {
    assert RowOk(s.rows[l.id]);
  }

  lemma DispatchKept(s: State, l: Label, tx: nat)
    requires RowsOk(s) && DispatchesOk(s) && HandlersOk(s) && Enabled(s, l)
    requires tx in Next(s, l).dispatches
    ensures DispatchOk(Next(s, l), Next(s, l).dispatches[tx])
  {
    if tx in s.dispatches {
      StepEvolves(s, l);
      HeldDispatchKept(s, l, tx);
    } else {
      DispatchFrame(s, l, tx);
      NewDispatchOk(s, l);
    }
  }

  lemma DispatchesKept(s: State, l: Label)
    requires RowsOk(s) && DispatchesOk(s) && HandlersOk(s) && Enabled(s, l)
    ensures DispatchesOk(Next(s, l))
  {
    var t := Next(s, l);
    forall tx | tx in t.dispatches ensures DispatchOk(t, t.dispatches[tx]) {
      DispatchKept(s, l, tx);
    }
    forall u, v | u in t.dispatches && v in t.dispatches && t.dispatches[u].msg.id == t.dispatches[v].msg.id
      ensures u == v
    {
      DispatchFrame(s, l, u);
      DispatchFrame(s, l, v);
    }
  }

  // --- No job is lost ---------------------------------------------------------------------------

  /** A step that rewrites a row leaves it active, terminal or pending; only a commit relies
      on the stored message. */
  lemma WrittenRowSafe(s: State, l: Label, id: JobId)
    requires RowsOk(s) && Enabled(s, l) && Writes(s, l, id) && !l.Commit?
    requires id in Next(s, l).rows
    requires id in s.rows ==> Next(s, l).rows[id] != s.rows[id]
    ensures Next(s, l).rows[id].status == Active || Terminal(Next(s, l).rows[id])
            || Next(s, l).rows[id].dispatchPending
  {
    if id in s.rows {
      assert RowOk(s.rows[id]);
    }
  }

  lemma UnchangedRowSafe(s: State, l: Label, id: JobId)
    requires HandlersOk(s) && NoJobLost(s) && Enabled(s, l)
    requires id in s.rows && id in Next(s, l).rows && Next(s, l).rows[id] == s.rows[id]
    ensures Safe(Next(s, l), id)
  {
    var m := Envelope(id, s.rows[id].attempts + 1);
    if Covered(s, m) {
      if l.Settle? {
        SettledIsNotNeeded(s, l, id);
      }
      CoveredUnlessSettled(s, l, m);
    }
    assert Safe(s, id);
  }

  lemma SafeKept(s: State, l: Label, id: JobId)
    requires RowsOk(s) && DispatchesOk(s) && HandlersOk(s) && NoJobLost(s) && Enabled(s, l)
    requires id in Next(s, l).rows && RowOk(Next(s, l).rows[id])
    ensures Safe(Next(s, l), id)
  {
    if !Writes(s, l, id) {
      UnwrittenRowSame(s, l, id);
    }
    if id in s.rows && Next(s, l).rows[id] == s.rows[id] {
      UnchangedRowSafe(s, l, id);
    } else if l.Commit? {
      var d := s.dispatches[l.tx];
      assert DispatchOk(s, d);
      CoveredUnlessSettled(s, l, d.msg);
    } else {
      WrittenRowSafe(s, l, id);
    }
  }

  // --- The invariant ----------------------------------------------------------------------------

  lemma StepKeepsInv(s: State, l: Label)
    requires Inv(s) && Enabled(s, l)
    ensures Inv(Next(s, l))
  {
    RowsKept(s, l);
    KeysKept(s, l);
    MessagesKept(s, l);
    HandlersKept(s, l);
    DispatchesKept(s, l);
    forall id | id in Next(s, l).rows ensures Safe(Next(s, l), id) {
      SafeKept(s, l, id);
    }
  }

  lemma StepThenRun(s: State, l: Label, ls: seq<Label>)
    requires Enabled(s, l) && IsRun(Next(s, l), ls)
    ensures IsRun(s, [l] + ls) && After(s, [l] + ls) == After(Next(s, l), ls)
  {
    assert ([l] + ls)[1..] == ls;
  }

  lemma {:induction false} RunKeepsInv(s: State, ls: seq<Label>)
    requires Inv(s) && IsRun(s, ls)
    ensures Inv(After(s, ls))
    decreases ls
  {
    if ls != [] {
      StepKeepsInv(s, ls[0]);
      RunKeepsInv(Next(s, ls[0]), ls[1..]);
    }
  }

  /** No job is ever lost: after any run from the empty system, through crashes, duplicate
      publications, rollbacks and redeliveries, every row that still needs work has a lease,
      a pending publication, or a queued or unacknowledged message for its next attempt. */
  lemma NoJobIsEverLost(leaseMs: nat, clock: Time, ls: seq<Label>, id: JobId)
    requires IsRun(Init(leaseMs, clock), ls)
    requires id in After(Init(leaseMs, clock), ls).rows
    ensures var s := After(Init(leaseMs, clock), ls);
            var r := s.rows[id];
            || Terminal(r)
            || (r.status == Active && r.leaseUntil.Some?)
            || r.dispatchPending
            || Covered(s, Envelope(id, r.attempts + 1))
  {
    RunKeepsInv(Init(leaseMs, clock), ls);
    assert Safe(After(Init(leaseMs, clock), ls), id);
  }

  /** Acknowledging a delivery whose claim found nothing to do is harmless: in a reachable
      state a claim fails exactly when its row is gone or has already counted the attempt. */
  lemma ClaimFailsOnlyWhenObsolete(leaseMs: nat, clock: Time, ls: seq<Label>, h: nat, now: Time)
    requires IsRun(Init(leaseMs, clock), ls)
    requires Enabled(After(Init(leaseMs, clock), ls), Claim(h, now))
    ensures var s := After(Init(leaseMs, clock), ls);
            var m := s.handlers[h].msg;
            Next(s, Claim(h, now)).handlers[h].phase == Decided(Ack, false)
            <==> (m.id !in s.rows || m.attempt <= s.rows[m.id].attempts)
  {
    var s := After(Init(leaseMs, clock), ls);
    RunKeepsInv(Init(leaseMs, clock), ls);
    var w := s.handlers[h];
    assert HandlerOk(s, w);
    if w.msg.id in s.rows {
      assert RowOk(s.rows[w.msg.id]);
    }
  }
}
