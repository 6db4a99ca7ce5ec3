/**
  Group commit on an engine that never ends a transaction on its own: whatever it refuses, no batch
  is orphaned and no write is made outside a transaction.
 */
module GroupCommitSteady {
  import opened Options
  import opened GroupCommit
  import opened GroupCommitDenied

  predicate Steady(w: World) {
    !w.faults.aborts
  }

  /** The open batch has its transaction, until a COMMIT or ROLLBACK of it is sent. */
  predicate Anchored(s: State) {
    && !s.past.orphaned && s.past.stray == {}
    && (s.open.Some? && Settled(s) ==> s.link.engine.inTx && !s.link.engine.implicit)
    && (s.holder.Some? ==> s.open.Some? && s.link.inFlight.None?)
  }

  // ---------------------------------------------------------------- the lock-held sections

  lemma {:induction false} SavepointStatements(w: World, s: State, st: Statement, undoing: bool)
    requires Steady(w) && Anchored(s) && s.holder.None? && st in {Savepoint, Release, RollbackTo}
    requires s.open.Some? ==> Settled(s)
    ensures var r := SendAs(w, s, st, undoing);
            && Anchored(r.s) && (s.open.Some? ==> Settled(r.s)) && (r.reply != Gone ==> r.s.link.inFlight.None?)
            && r.s.open == s.open && r.s.holder.None?
  {
  }

  /** The batch's own transaction is never closed by a savepoint statement. */
  lemma {:induction false} RollbackJobStays(w: World, s: State, undoing: bool)
    requires Steady(w) && Anchored(s) && s.holder.None? && (s.open.Some? ==> Settled(s))
    ensures var r := RollbackJob(w, s, undoing);
            && Anchored(r.s) && (r.reply != Gone ==> r.s.link.inFlight.None?) && r.s.open == s.open && r.s.holder.None?
            && (s.open.Some? ==> Settled(r.s))
  {
    SavepointStatements(w, s, RollbackTo, undoing);
    var r := SendAs(w, s, RollbackTo, undoing);
    if r.reply == Ok {
      SavepointStatements(w, r.s, Release, undoing);
    }
  }

  lemma {:induction false} DiscardBatchStays(w: World, s: State, why: Why)
    requires !s.past.orphaned && s.past.stray == {} && s.holder.None?
    ensures var r := DiscardBatch(w, s, why);
            Anchored(r.s) && (r.reply != Gone ==> r.s.open.None? && r.s.link.inFlight.None?) && r.s.holder.None?
  {
  }

  lemma {:induction false} RollbackJobOrDiscardStays(w: World, s: State)
    requires Steady(w) && Anchored(s) && s.holder.None? && (s.open.Some? ==> Settled(s))
    ensures var r := RollbackJobOrDiscard(w, s);
            Anchored(r.s) && (r.reply != Gone ==> r.s.link.inFlight.None?) && r.s.holder.None?
  {
    RollbackJobStays(w, s, false);
    DiscardBatchStays(w, RollbackJob(w, s, false).s, TransactionLost);
  }

  lemma {:induction false} CommitBatchStays(w: World, s: State)
    requires Steady(w) && Anchored(s) && s.holder.None? && s.link.inFlight.None?
    ensures var r := CommitBatch(w, s); Anchored(r.s) && (r.reply != Gone ==> r.s.link.inFlight.None?) && r.s.holder.None?
  {
  }

  lemma {:induction false} ReconcileStays(w: World, s: State)
    requires Steady(w) && Anchored(s) && s.holder.None?
    ensures var r := Reconcile(w, s); Anchored(r.s) && (r.reply == Ok ==> r.s.link.inFlight.None?) && r.s.holder.None?
  {
    if s.link.inFlight.Some? {
      match s.link.inFlight.value
      case Begin => DiscardBatchStays(w, s, OutcomeUnknown);
      case Rollback => DiscardBatchStays(w, s, OutcomeUnknown);
      case Commit => DiscardBatchStays(w, Send(w, s, Commit).s, OutcomeUnknown);
      case _ => RollbackJobStays(w, s, true);
    }
  }

  lemma {:induction false} SettleAbandonedStays(w: World, s: State)
    requires Steady(w) && Anchored(s) && s.holder.None? && s.link.inFlight.None?
    ensures var r := SettleAbandoned(w, s);
            Anchored(r.s) && (r.reply == Ok ==> r.s.link.inFlight.None?) && r.s.holder.None?
  {
    RollbackJobOrDiscardStays(w, s);
  }

  /** A job is started only in the batch's own live transaction. */
  lemma {:induction false} StartJobStays(w: World, s: State)
    requires Steady(w) && Anchored(s) && s.holder.None? && s.link.inFlight.None?
    ensures var r := StartJob(w, s);
            Anchored(r.s) && r.s.holder.None? && (r.reply == Ok ==> r.s.open.Some? && r.s.link.inFlight.None?)
  {
    SettleAbandonedStays(w, s);
    var a := SettleAbandoned(w, s);
    if a.reply == Ok {
      var b := JoinBatch(w, a.s);
      assert Anchored(b.s);
      if b.reply == Ok {
        SavepointStatements(w, b.s, Savepoint, false);
        assert NoteOrphan(b.s) == b.s;
      }
    }
  }

  lemma {:induction false} BeginJobStays(w: World, s: State)
    requires Steady(w) && Anchored(s) && s.holder.None?
    ensures Anchored(BeginJob(w, s))
  {
    ReconcileStays(w, s);
    var c := Reconcile(w, s);
    if c.reply == Ok {
      StartJobStays(w, c.s);
    }
  }

  lemma {:induction false} SettleAndCommitStays(w: World, s: State, commit: bool)
    requires Steady(w) && Anchored(s) && s.holder.None?
    ensures Anchored(SettleAndCommit(w, s, commit))
  {
    ReconcileStays(w, s);
    var c := Reconcile(w, s);
    if c.reply == Ok {
      SettleAbandonedStays(w, c.s);
      var a := SettleAbandoned(w, c.s);
      if a.reply == Ok {
        CommitBatchStays(w, a.s);
      }
    }
  }

  lemma {:induction false} EndJobStays(w: World, s: State)
    requires Steady(w) && Anchored(s) && s.holder.None? && s.open.Some? && s.link.inFlight.None?
    ensures var r := EndJob(w, s);
            && Anchored(r.s) && r.s.holder.None?
            && (r.reply == Ok ==> r.s.open.Some? && r.s.link.inFlight.None?)
  {
    SavepointStatements(w, s, Release, false);
    var r := Send(w, s, Release);
    if r.reply == Err {
      RollbackJobOrDiscardStays(w, r.s);
    }
  }

  lemma {:induction false} FinishStays(w: World, s: State, others: bool)
    requires Steady(w) && Anchored(s) && s.holder.Some?
    ensures Anchored(Finish(w, s, others))
  {
    EndJobStays(w, Unhold(s));
    var r := EndJob(w, Unhold(s));
    if r.reply == Ok {
      CommitBatchStays(w, r.s);
    }
  }

  lemma {:induction false} FailStays(w: World, s: State, others: bool)
    requires Steady(w) && Anchored(s) && s.holder.Some?
    ensures Anchored(Fail(w, s, others))
  {
    var t := s.(holder := None);
    RollbackJobOrDiscardStays(w, t);
    var r := RollbackJobOrDiscard(w, t);
    if r.reply == Ok {
      CommitBatchStays(w, r.s);
    }
  }

  lemma {:induction false} StepStays(w: World, s: State, ev: Event)
    requires Steady(w) && Anchored(s)
    ensures Anchored(Step(w, s, ev))
  {
    if s.holder.None? {
      match ev
      case BeginsJob => BeginJobStays(w, s);
      case Locks(commit) => SettleAndCommitStays(w, s, commit);
      case WaiterLocks(idle) =>
        SettleAndCommitStays(w, s, true);
        ReconcileStays(w, s);
      case _ =>
    } else {
      match ev
      case Finishes(others) => FinishStays(w, s, others);
      case Fails(others) => FailStays(w, s, others);
      case _ =>
    }
  }

  lemma {:induction false} RunStays(w: World, events: seq<Event>)
    requires Steady(w)
    ensures Anchored(Run(w, events))
    decreases |events|
  {
    if events != [] {
      var front, last := events[..|events| - 1], events[|events| - 1];
      RunStays(w, front);
      StepStays(w, Run(w, front), last);
    }
  }
}
