/**
  What a job that was told its batch failed left behind, in every world: whatever the engine refuses
  or aborts, as long as no job was started in a batch whose transaction was gone.
 */
module GroupCommitDenied {
  import opened Options
  import opened GroupCommit
  import opened GroupCommitSafety

  predicate Denied(a: Answer) {
    a.Failed? && a.why != OutcomeUnknown
  }

  /** Every write of the open transaction. */
  function Pending(e: Engine): set<Write> {
    e.base + Union(e.layers)
  }

  /** Those of it below the innermost savepoint. */
  function Below(e: Engine): set<Write>
    requires e.layers != []
  {
    e.base + Union(e.layers[..|e.layers| - 1])
  }

  // ---------------------------------------------------------------- the engine's side

  /** The transaction, if there is one, is one that BEGIN opened. */
  predicate Plain(e: Engine) {
    !e.implicit && (!e.inTx ==> e == RollbackOpen(e))
  }

  /** `f` is `e` after statements that committed nothing and wrote nothing. */
  predicate Shrinks(e: Engine, f: Engine) {
    Plain(f) && f.committed == e.committed && Pending(f) <= Pending(e)
  }

  lemma {:induction false} NothingPending(e: Engine)
    requires !e.inTx && Plain(e)
    ensures Pending(e) == {}
  {
  }

  lemma {:induction false} PopKeepsPending(e: Engine)
    requires e.layers != []
    ensures Pending(PopLayer(e)) == Pending(e)
  {
    var n := |e.layers|;
    if n == 1 {
      assert e.layers[..0] == [];
    } else {
      var popped, front := PopLayer(e).layers, e.layers[..n - 1];
      assert popped[..n - 2] == e.layers[..n - 2] == front[..n - 2];
      assert Union(front) == Union(front[..n - 2]) + e.layers[n - 2];
      assert Union(popped) == Union(popped[..n - 2]) + (e.layers[n - 2] + e.layers[n - 1]);
    }
  }

  lemma {:induction false} RollbackToDropsTop(e: Engine)
    requires e.layers != []
    ensures var f := e.(layers := e.layers[|e.layers| - 1 := {}]);
            Pending(f) == Below(e) && Below(e) <= Pending(e)
  {
    var n := |e.layers|;
    assert e.layers[n - 1 := {}][..n - 1] == e.layers[..n - 1];
  }

  lemma {:induction false} SavepointAddsNothing(e: Engine)
    ensures var f := e.(layers := e.layers + [{}]); Pending(f) == Pending(e) && Below(f) == Pending(e)
  {
    assert (e.layers + [{}])[..|e.layers|] == e.layers;
  }

  lemma {:induction false} RollbackToShrinks(w: World, l: Link, undoing: bool)
    requires Plain(l.engine)
    ensures var c := Control(w, l, RollbackTo, undoing);
            && Shrinks(l.engine, c.0.engine)
            && (c.1 == Ok ==> c.0.inFlight.None? && l.engine.layers != [] && c.0.engine.layers != []
                              && Pending(c.0.engine) <= Below(l.engine))
            && (c.1 == Err ==> c.0.inFlight.None?)
            && (c.1 == Gone ==> c.0.inFlight == Some(RollbackTo))
  {
    if l.engine.layers != [] {
      RollbackToDropsTop(l.engine);
    }
  }

  lemma {:induction false} ReleaseShrinks(w: World, l: Link, undoing: bool)
    requires Plain(l.engine)
    ensures var c := Control(w, l, Release, undoing);
            && Shrinks(l.engine, c.0.engine)
            && (c.1 != Gone ==> c.0.inFlight.None?)
            && (c.1 == Gone ==> c.0.inFlight == Some(Release))
  {
    if l.engine.layers != [] {
      PopKeepsPending(l.engine);
    }
  }

  lemma {:induction false} RollbackShrinks(w: World, l: Link)
    requires Plain(l.engine)
    ensures var c := Control(w, l, Rollback, false);
            && Shrinks(l.engine, c.0.engine)
            && (c.1 != Gone ==> c.0.inFlight.None? && (!w.faults.refusesRollback ==> !c.0.engine.inTx))
            && (c.1 == Gone ==> c.0.inFlight == Some(Rollback))
  {
  }

  /** COMMIT makes the pending writes durable, or shrinks like the others. */
  lemma {:induction false} CommitOrShrinks(w: World, l: Link)
    requires Plain(l.engine)
    ensures var c := Control(w, l, Commit, false);
            && Plain(c.0.engine)
            && (c.1 == Ok ==> c.0.inFlight.None? && c.0.engine.committed == l.engine.committed + Pending(l.engine))
            && (c.1 == Ok ==> Pending(c.0.engine) == {})
            && (c.1 == Err ==> c.0.inFlight.None? && Shrinks(l.engine, c.0.engine))
            && (c.1 == Gone ==> && c.0.inFlight == Some(Commit) && Pending(c.0.engine) <= Pending(l.engine)
                                && l.engine.committed <= c.0.engine.committed <= l.engine.committed + Pending(l.engine))
  {
  }

  // ---------------------------------------------------------------- the invariant

  ghost predicate Records(s: State) {
    && Plain(s.link.engine) && !s.past.orphaned
    && s.past.stray <= s.past.written && s.past.stray <= s.link.engine.committed
    && s.link.engine.committed <= s.past.written && Pending(s.link.engine) <= s.past.written
  }

  /** The holder's writes are above its savepoint and nowhere else. */
  ghost predicate Above(s: State) {
    s.holder.Some? ==>
      var j := s.holder.value;
      var e := s.link.engine;
      && j < s.next && j !in s.past.finished && s.jobOpen && s.link.inFlight.None?
      && (e.inTx ==> e.layers != [] && forall x :: x in Below(e) ==> x.job != j)
      && NotDurable(s, {j})
  }

  /** No write the jobs made inside their transaction is committed. */
  ghost predicate NotDurable(s: State, jobs: set<Job>) {
    forall x :: x in s.link.engine.committed && x.job in jobs ==> x in s.past.stray
  }

  /** No COMMIT or ROLLBACK is unaccounted for. */
  predicate Settled(s: State) {
    s.link.inFlight != Some(Commit) && s.link.inFlight != Some(Rollback)
  }

  /** Not committed, and not pending either, unless in a transaction that outlived its batch. */
  ghost predicate Lost(s: State, x: Write, lax: bool) {
    && (x in s.link.engine.committed ==> x in s.past.stray)
    && (x in Pending(s.link.engine) ==> lax && s.open.None?)
  }

  ghost predicate DeniedAreLost(s: State, lax: bool) {
    forall x :: x in s.past.written && x.job in s.past.answers && Denied(s.past.answers[x.job]) && x !in s.past.stray
                ==> Lost(s, x, lax)
  }

  ghost predicate Frame(w: World, s: State) {
    && Records(s) && Books(s) && Places(s) && Above(s) && DeniedAreLost(s, w.faults.refusesRollback)
  }

  /** Until a COMMIT is under way no waiting job's write is durable. */
  ghost predicate Holds(w: World, s: State) {
    Frame(w, s) && (Settled(s) ==> NotDurable(s, Waiters(s)))
  }

  // ---------------------------------------------------------------- the lock-held sections

  lemma {:induction false} ShrinksKeeps(w: World, s: State, t: State)
    requires Frame(w, s) && s.holder.None? && SameBooks(s, t) && Shrinks(s.link.engine, t.link.engine) && Books(t)
    ensures Frame(w, t) && (Holds(w, s) && (Settled(t) ==> Settled(s)) ==> Holds(w, t))
  {
  }

  lemma {:induction false} RollbackJobKeeps(w: World, s: State, undoing: bool)
    requires Holds(w, s) && s.holder.None? && s.open.Some? && Settled(s)
    ensures var r := RollbackJob(w, s, undoing);
            && Holds(w, r.s) && SameBooks(s, r.s) && Settled(r.s)
            && Shrinks(s.link.engine, r.s.link.engine)
            && (r.reply == Ok ==> s.link.engine.layers != [] && Pending(r.s.link.engine) <= Below(s.link.engine) && !r.s.jobOpen)
            && (r.reply != Gone ==> r.s.link.inFlight.None?)
  {
    RollbackToShrinks(w, s.link, undoing);
    var r := SendAs(w, s, RollbackTo, undoing);
    ShrinksKeeps(w, s, r.s);
    if r.reply == Ok {
      ReleaseShrinks(w, r.s.link, undoing);
      var q := SendAs(w, r.s, Release, undoing);
      ShrinksKeeps(w, r.s, q.s);
      ShrinksKeeps(w, q.s, q.s.(jobOpen := false));
    }
  }

  /** The waiters of a batch are told it failed. */
  lemma {:induction false} DenyKeeps(w: World, s: State, why: Why)
    requires Frame(w, s) && s.holder.None? && s.link.inFlight.None?
    requires why != OutcomeUnknown ==> NotDurable(s, Waiters(s))
    requires !w.faults.refusesRollback ==> !s.link.engine.inTx
    ensures Holds(w, Answered(s, Failed(why)).(jobOpen := false))
  {
    if !s.link.engine.inTx {
      NothingPending(s.link.engine);
    }
  }

  lemma {:induction false} DiscardBatchKeeps(w: World, s: State, why: Why)
    requires Frame(w, s) && s.holder.None? && (why != OutcomeUnknown ==> NotDurable(s, Waiters(s)))
    ensures var r := DiscardBatch(w, s, why);
            && Holds(w, r.s) && Keeps(s, r.s) && OnlyWaitersAnswered(s, r.s) && Shrinks(s.link.engine, r.s.link.engine)
            && (r.reply != Gone ==> && r.s.link.inFlight.None? && r.s.open.None? && !r.s.jobOpen
                                    && (!w.faults.refusesRollback ==> !r.s.link.engine.inTx))
  {
    RollbackShrinks(w, s.link);
    var r := Send(w, s, Rollback);
    ShrinksKeeps(w, s, r.s);
    if r.reply != Gone {
      DenyKeeps(w, r.s, why);
    }
  }

  lemma {:induction false} RollbackJobOrDiscardKeeps(w: World, s: State)
    requires Holds(w, s) && s.holder.None? && s.open.Some? && Settled(s)
    ensures var r := RollbackJobOrDiscard(w, s);
            && Holds(w, r.s) && Keeps(s, r.s) && OnlyWaitersAnswered(s, r.s) && Shrinks(s.link.engine, r.s.link.engine)
            && (r.reply != Gone ==> r.s.link.inFlight.None? && !r.s.jobOpen)
            && (r.reply == Ok ==> s.link.engine.layers != [] && Pending(r.s.link.engine) <= Below(s.link.engine))
            && (r.reply == Err ==> r.s.open.None? && (!w.faults.refusesRollback ==> !r.s.link.engine.inTx))
  {
    RollbackJobKeeps(w, s, false);
    var r := RollbackJob(w, s, false);
    if r.reply == Err {
      DiscardBatchKeeps(w, r.s, TransactionLost);
    }
  }

  lemma {:induction false} SettleAbandonedKeeps(w: World, s: State)
    requires Holds(w, s) && s.holder.None? && s.link.inFlight.None?
    ensures var r := SettleAbandoned(w, s);
            Holds(w, r.s) && Keeps(s, r.s) && (r.reply == Ok ==> r.s.link.inFlight.None? && !r.s.jobOpen)
  {
    if s.jobOpen {
      RollbackJobOrDiscardKeeps(w, s);
    }
  }

  lemma {:induction false} UndoSavepointKeeps(w: World, s: State)
    requires Holds(w, s) && s.holder.None? && s.open.Some? && Settled(s)
    ensures var r := UndoSavepoint(w, s);
            Holds(w, r.s) && Keeps(s, r.s) && (r.reply == Ok ==> r.s.link.inFlight.None?)
  {
    RollbackJobKeeps(w, s, true);
    var r := RollbackJob(w, s, true);
    ShrinksKeeps(w, r.s, r.s.(jobOpen := false));
  }

  /** The open transaction becomes durable: no denied write is in it. */
  lemma {:induction false} CommittedKeeps(w: World, s: State, t: State)
    requires Frame(w, s) && s.holder.None? && s.open.Some? && SameBooks(s, t) && t.jobOpen == s.jobOpen
    requires Plain(t.link.engine) && Pending(t.link.engine) <= Pending(s.link.engine)
    requires s.link.engine.committed <= t.link.engine.committed <= s.link.engine.committed + Pending(s.link.engine)
    ensures Frame(w, t)
  {
  }

  lemma {:induction false} AcceptKeeps(w: World, s: State)
    requires Frame(w, s) && s.holder.None? && !s.jobOpen && s.link.inFlight.None?
    ensures Holds(w, Answered(s, Committed))
  {
  }

  lemma {:induction false} SettleUnknownCommitKeeps(w: World, s: State)
    requires Holds(w, s) && s.holder.None? && s.link.inFlight == Some(Commit) && !s.jobOpen
    ensures var r := SettleUnknownCommit(w, s);
            Holds(w, r.s) && Keeps(s, r.s) && (r.reply == Ok ==> r.s.link.inFlight.None?)
  {
    if s.open.Some? {
      CommitOrShrinks(w, s.link);
      var r := Send(w, s, Commit);
      CommittedKeeps(w, s, r.s);
      if r.reply == Ok {
        AcceptKeeps(w, r.s);
      } else if r.reply == Err {
        DiscardBatchKeeps(w, r.s, OutcomeUnknown);
      }
    }
  }

  lemma {:induction false} ReconcileKeeps(w: World, s: State)
    requires Holds(w, s) && s.holder.None? && CommitAlone(s)
    ensures var r := Reconcile(w, s);
            Holds(w, r.s) && Keeps(s, r.s) && CommitAlone(r.s) && (r.reply == Ok ==> r.s.link.inFlight.None?)
  {
    if s.link.inFlight.Some? {
      match s.link.inFlight.value
      case Begin => DiscardBatchKeeps(w, s, OutcomeUnknown);
      case Rollback => DiscardBatchKeeps(w, s, OutcomeUnknown);
      case Commit => SettleUnknownCommitKeeps(w, s);
      case _ => UndoSavepointKeeps(w, s);
    }
  }

  /** A COMMIT is sent only when no job is open. */
  predicate CommitAlone(s: State) {
    s.link.inFlight == Some(Commit) ==> !s.jobOpen
  }

  lemma {:induction false} CommitBatchKeeps(w: World, s: State)
    requires Holds(w, s) && s.holder.None? && s.link.inFlight.None? && !s.jobOpen
    ensures var r := CommitBatch(w, s); Holds(w, r.s) && Keeps(s, r.s) && CommitAlone(r.s)
  {
    if s.open.Some? {
      CommitOrShrinks(w, s.link);
      var r := Send(w, s, Commit);
      CommittedKeeps(w, s, r.s);
      if r.reply == Ok {
        AcceptKeeps(w, r.s);
      } else if r.reply == Err {
        ShrinksKeeps(w, s, r.s);
        RollbackShrinks(w, r.s.link);
        var q := Send(w, r.s, Rollback);
        ShrinksKeeps(w, r.s, q.s);
        if q.reply != Gone {
          DenyKeeps(w, q.s, CommitFailed);
        }
      }
    }
  }

  // ---------------------------------------------------------------- the steps

  lemma {:induction false} JoinBatchKeeps(w: World, s: State)
    requires Holds(w, s) && s.holder.None? && s.link.inFlight.None? && !s.jobOpen
    ensures var r := JoinBatch(w, s);
            && Holds(w, r.s) && Keeps(s, r.s) && CommitAlone(r.s)
            && (r.reply == Ok ==> r.s.open.Some? && r.s.link.inFlight.None? && !r.s.jobOpen)
  {
  }

  lemma {:induction false} OpenSavepointKeeps(w: World, s: State)
    requires Holds(w, s) && s.holder.None? && s.open.Some? && s.link.inFlight.None? && !s.jobOpen
    requires !OpenSavepoint(w, s).s.past.orphaned
    ensures var r := OpenSavepoint(w, s);
            && Holds(w, r.s) && Keeps(s, r.s) && CommitAlone(r.s)
            && (r.reply == Ok ==> && r.s.open.Some? && r.s.jobOpen && r.s.link.inFlight.None?
                                  && r.s.link.engine.layers != [] && Below(r.s.link.engine) <= s.past.written)
  {
    SavepointAddsNothing(s.link.engine);
  }

  lemma {:induction false} StartJobKeeps(w: World, s: State)
    requires Holds(w, s) && s.holder.None? && s.link.inFlight.None? && !StartJob(w, s).s.past.orphaned
    ensures var r := StartJob(w, s);
            && Holds(w, r.s) && Keeps(s, r.s) && CommitAlone(r.s)
            && (r.reply == Ok ==> && r.s.open.Some? && r.s.jobOpen && r.s.link.inFlight.None?
                                  && r.s.link.engine.layers != [] && Below(r.s.link.engine) <= s.past.written)
  {
    SettleAbandonedKeeps(w, s);
    var a := SettleAbandoned(w, s);
    if a.reply == Ok {
      JoinBatchKeeps(w, a.s);
      var b := JoinBatch(w, a.s);
      if b.reply == Ok {
        OpenSavepointKeeps(w, b.s);
      }
    }
  }

  lemma {:induction false} BeginJobKeeps(w: World, s: State)
    requires Holds(w, s) && s.holder.None? && CommitAlone(s) && !BeginJob(w, s).past.orphaned
    ensures Holds(w, BeginJob(w, s)) && CommitAlone(BeginJob(w, s))
  {
    ReconcileKeeps(w, s);
    var c := Reconcile(w, s);
    if c.reply == Ok {
      StartJobKeeps(w, c.s);
    }
  }

  lemma {:induction false} SettleAndCommitKeeps(w: World, s: State, commit: bool)
    requires Holds(w, s) && s.holder.None? && CommitAlone(s)
    ensures Holds(w, SettleAndCommit(w, s, commit)) && CommitAlone(SettleAndCommit(w, s, commit))
  {
    ReconcileKeeps(w, s);
    var c := Reconcile(w, s);
    if c.reply == Ok {
      SettleAbandonedKeeps(w, c.s);
      var a := SettleAbandoned(w, c.s);
      if a.reply == Ok {
        CommitBatchKeeps(w, a.s);
      }
    }
  }

  /** The job's RELEASE: its writes join those below, or stay where they are. */
  lemma {:induction false} ReleaseKeeps(w: World, s: State)
    requires Holds(w, s) && s.holder.Some?
    ensures var r := Send(w, Unhold(s), Release);
            && Holds(w, r.s) && SameBooks(Unhold(s), r.s) && NotDurable(r.s, {s.holder.value}) && r.s.jobOpen == s.jobOpen
            && (r.reply != Gone ==> r.s.link.inFlight.None?)
            && (r.reply == Gone ==> r.s.link.inFlight == Some(Release))
            && (r.reply == Err ==> r.s.link.engine == s.link.engine || !r.s.link.engine.inTx)
  {
    ReleaseShrinks(w, s.link, false);
  }

  lemma {:induction false} EndJobKeeps(w: World, s: State)
    requires Holds(w, s) && s.holder.Some?
    ensures var r := EndJob(w, Unhold(s));
            var j := s.holder.value;
            && Holds(w, r.s) && Keeps(Unhold(s), r.s) && CommitAlone(r.s) && NotDurable(r.s, {j})
            && j !in r.s.past.answers && j !in Waiters(r.s)
            && (r.reply == Ok ==> r.s.open.Some? && r.s.link.inFlight.None? && !r.s.jobOpen)
            && (r.reply == Err ==> forall x :: x in Pending(r.s.link.engine) && x.job == j
                                               ==> w.faults.refusesRollback && r.s.open.None?)
  {
    ReleaseKeeps(w, s);
    var r := Send(w, Unhold(s), Release);
    if r.reply == Err {
      RollbackJobOrDiscardKeeps(w, r.s);
      var q := RollbackJobOrDiscard(w, r.s);
      if !q.s.link.engine.inTx {
        NothingPending(q.s.link.engine);
      }
    }
  }

  lemma {:induction false} TellFailedKeeps(w: World, s: State, j: Job, why: Why)
    requires Holds(w, s) && s.holder.None? && j in s.past.finished && j !in Waiters(s) && j !in s.past.answers
    requires NotDurable(s, {j})
    requires forall x :: x in Pending(s.link.engine) && x.job == j ==> w.faults.refusesRollback && s.open.None?
    ensures Holds(w, Tell(s, j, Failed(why)))
  {
  }

  lemma {:induction false} EnlistKeeps(w: World, s: State, j: Job)
    requires Holds(w, s) && s.holder.None? && s.open.Some? && NotDurable(s, {j})
    requires j in s.past.finished && j !in s.past.answers
    ensures Holds(w, Enlist(s, j))
  {
  }

  lemma {:induction false} FinishKeeps(w: World, s: State, others: bool)
    requires Holds(w, s) && s.holder.Some?
    ensures Holds(w, Finish(w, s, others)) && CommitAlone(Finish(w, s, others))
  {
    var j := s.holder.value;
    EndJobKeeps(w, s);
    var r := EndJob(w, Unhold(s));
    if r.reply == Err {
      TellFailedKeeps(w, r.s, j, ReleaseFailed);
    } else if r.reply == Ok {
      EnlistKeeps(w, r.s, j);
      CommitBatchKeeps(w, r.s);
      CommitBatchKeeps(w, Enlist(r.s, j));
      if CommitBatch(w, r.s).reply != Gone {
        CommitterIsAWaiter(w, r.s, j);
      }
    }
  }

  lemma {:induction false} FailKeeps(w: World, s: State, others: bool)
    requires Holds(w, s) && s.holder.Some?
    ensures Holds(w, Fail(w, s, others)) && CommitAlone(Fail(w, s, others))
  {
    var t := s.(holder := None);
    RollbackJobOrDiscardKeeps(w, t);
    var r := RollbackJobOrDiscard(w, t);
    if r.reply == Ok {
      CommitBatchKeeps(w, r.s);
    }
  }

  lemma {:induction false} JobWriteKeeps(w: World, s: State, n: nat)
    requires Holds(w, s) && s.holder.Some?
    ensures Holds(w, JobWrite(s, n))
  {
    var e, x := s.link.engine, Write(s.holder.value, n);
    var f := EngineWrite(e, x);
    if e.inTx {
      assert f.layers[..|e.layers| - 1] == e.layers[..|e.layers| - 1];
      assert Pending(f) == Pending(e) + {x} && Below(f) == Below(e);
    }
  }

  lemma {:induction false} AbortKeeps(w: World, s: State)
    requires Holds(w, s)
    ensures Holds(w, Abort(w, s))
  {
    NothingPending(RollbackOpen(s.link.engine));
  }

  lemma {:induction false} StepKeeps(w: World, s: State, ev: Event)
    requires Holds(w, s) && CommitAlone(s) && !Step(w, s, ev).past.orphaned
    ensures Holds(w, Step(w, s, ev)) && CommitAlone(Step(w, s, ev))
  {
    if ev.EngineAborts? {
      AbortKeeps(w, s);
    } else if s.holder.None? {
      match ev
      case BeginsJob => BeginJobKeeps(w, s);
      case Locks(commit) => SettleAndCommitKeeps(w, s, commit);
      case WaiterLocks(idle) =>
        ReconcileKeeps(w, s);
        SettleAndCommitKeeps(w, s, true);
      case _ =>
    } else {
      match ev
      case Writes(n) => JobWriteKeeps(w, s, n);
      case Finishes(others) => FinishKeeps(w, s, others);
      case Fails(others) => FailKeeps(w, s, others);
      case _ =>
    }
  }

  lemma {:induction false} RunKeeps(w: World, events: seq<Event>)
    requires !Run(w, events).past.orphaned
    ensures Holds(w, Run(w, events)) && CommitAlone(Run(w, events))
    decreases |events|
  {
    if events != [] {
      var front, last := events[..|events| - 1], events[|events| - 1];
      RunKeeps(w, front);
      StepKeeps(w, Run(w, front), last);
    }
  }

  // ---------------------------------------------------------------- the theorems

  ghost predicate WasDenied(s: State, x: Write) {
    x in s.past.written && x.job in s.past.answers && Denied(s.past.answers[x.job])
  }

  ghost predicate Nowhere(e: Engine, x: Write) {
    x !in e.committed && x !in Pending(e)
  }

  /** A write of a job told its batch failed is durable exactly when the engine had ended the
      transaction under the job before the job made it. */
  lemma {:induction false} DeniedDurableExactly(w: World, events: seq<Event>, x: Write)
    requires !Run(w, events).past.orphaned && WasDenied(Run(w, events), x)
    ensures x in Run(w, events).link.engine.committed <==> x in Run(w, events).past.stray
  {
    RunKeeps(w, events);
  }

  /** Where a ROLLBACK is never refused, it is otherwise nowhere: not pending either. */
  lemma {:induction false} DeniedNowhereExactly(w: World, events: seq<Event>, x: Write)
    requires !w.faults.refusesRollback && !Run(w, events).past.orphaned && WasDenied(Run(w, events), x)
    ensures Nowhere(Run(w, events).link.engine, x) <==> x !in Run(w, events).past.stray
  {
    RunKeeps(w, events);
  }
}
