/**
  What every run of the group commit keeps while undoing a savepoint is never refused: the engine
  may end transactions on its own, refuse any other statement, and callers may be dropped anywhere.

  Every reachable state satisfies `Inv`; two promises are read off it: a job answered `Committed` is
  durable, and only finished jobs commit.
 */
module GroupCommitSafety {
  import opened Options
  import opened GroupCommit

  /** Undoing a savepoint on behalf of a dropped caller is not refused while the savepoint lives. */
  ghost predicate Undoes(w: World) {
    forall tick: nat, st: Statement :: FateOf(w, tick, st, true) != Refused
  }

  // ---------------------------------------------------------------- the engine's side

  /** At most one savepoint; a transaction a savepoint opened has it still. */
  predicate Shape(e: Engine) {
    && (!e.inTx ==> e == RollbackOpen(e))
    && (e.implicit ==> e.base == {} && |e.layers| == 1)
    && |e.layers| <= 1
  }

  /** `f` is `e` after statements that committed nothing: the transaction ended, or its savepoint
      was emptied, released empty, or left alone. */
  predicate Calm(e: Engine, f: Engine) {
    && Shape(f) && f.committed == e.committed && (f.inTx ==> e.inTx)
    && (f.inTx ==> && f.implicit == e.implicit && f.base == e.base
                   && (f.layers == e.layers || f.layers == [{}] || f.layers == []))
  }

  lemma {:induction false} RollbackToIsCalm(w: World, l: Link, undoing: bool)
    requires Shape(l.engine) && Undoes(w)
    ensures var c := Control(w, l, RollbackTo, undoing);
            && Calm(l.engine, c.0.engine)
            && (c.1 == Ok ==> c.0.inFlight.None? && c.0.engine.layers == [{}])
            && (c.1 == Err ==> c.0.inFlight.None? && (undoing ==> c.0.engine.layers == []))
            && (c.1 == Gone ==> c.0.inFlight == Some(RollbackTo))
  {
  }

  lemma {:induction false} UnionOfOne(x: set<Write>)
    ensures Union([x]) == x
  {
    assert [x][..0] == [];
  }

  lemma {:induction false} EmptyReleaseIsCalm(w: World, l: Link, undoing: bool)
    requires Shape(l.engine) && l.engine.layers == [{}] && Undoes(w)
    ensures var c := Control(w, l, Release, undoing);
            && Calm(l.engine, c.0.engine)
            && (c.1 == Ok ==> c.0.inFlight.None? && c.0.engine.layers == [])
            && (c.1 == Err ==> c.0.inFlight.None? && (undoing ==> c.0.engine.layers == []))
            && (c.1 == Gone ==> c.0.inFlight == Some(Release))
  {
    UnionOfOne({});
  }

  lemma {:induction false} RollbackIsCalm(w: World, l: Link)
    requires Shape(l.engine)
    ensures var c := Control(w, l, Rollback, false);
            && Calm(l.engine, c.0.engine)
            && (c.1 != Gone ==> c.0.inFlight.None?)
            && (c.1 == Gone ==> c.0.inFlight == Some(Rollback))
  {
  }

  // ---------------------------------------------------------------- the invariant

  ghost predicate Memory(s: State) {
    && Shape(s.link.engine)
    && (s.link.inFlight == Some(Commit) ==> !s.jobOpen && s.link.engine.layers == [])
    && s.past.stray <= s.past.written && s.past.stray <= s.link.engine.committed
  }

  /** Without a batch nothing is running and no savepoint is being handled. */
  predicate Books(s: State) {
    s.open.None? ==> && !s.jobOpen && s.holder.None?
                     && s.link.inFlight != Some(Savepoint) && s.link.inFlight != Some(Release)
                     && s.link.inFlight != Some(RollbackTo)
  }

  /** Nothing pending on the lock: the batch's transaction has no savepoint left in it. */
  predicate Quiet(s: State) {
    s.link.inFlight.None? && !s.jobOpen && s.open.Some? ==> s.link.engine.layers == []
  }

  /** Every job is in one place: running, waiting for the COMMIT, or answered. */
  ghost predicate Places(s: State) {
    && (forall j :: j in Waiters(s) ==> j in s.past.finished && j !in s.past.answers)
    && (forall j :: j in s.past.answers ==> j in s.past.finished)
    && (forall j :: j in s.past.finished ==> j < s.next)
    && (forall x :: x in s.past.written ==> x.job < s.next)
  }

  /** The holder's job is open, and a live transaction holds all it wrote above its savepoint. */
  ghost predicate Running(s: State) {
    s.holder.Some? ==>
      var j := s.holder.value;
      var e := s.link.engine;
      && j < s.next && j !in s.past.finished && s.jobOpen && s.link.inFlight.None?
      && (e.inTx ==> |e.layers| == 1
                     && (forall x :: x in e.layers[0] ==> x.job == j)
                     && (forall x :: x in s.past.written && x.job == j && x !in s.past.stray ==> x in e.layers[0]))
  }

  /** A transaction the batch began holds every waiter's writes below the running savepoint. */
  ghost predicate WaitersHeld(s: State) {
    s.link.engine.inTx && !s.link.engine.implicit ==>
      forall x :: x in s.past.written && x.job in Waiters(s) && x !in s.past.stray ==> x in s.link.engine.base
  }

  ghost predicate OkIsDurable(s: State) {
    forall x :: x in s.past.written && x.job in s.past.answers && s.past.answers[x.job] == Committed
                ==> x in s.link.engine.committed
  }

  /** A committed write is of a job that was finished, or was made after the engine had ended the
      transaction under its job. */
  ghost predicate OnlyFinished(s: State) {
    && (forall x :: x in s.link.engine.base ==> x.job in s.past.finished)
    && (forall x :: x in s.link.engine.committed ==> x.job in s.past.finished || x in s.past.stray)
  }

  ghost predicate Core(s: State) {
    && Memory(s) && Books(s) && Places(s) && Running(s) && WaitersHeld(s) && OkIsDurable(s) && OnlyFinished(s)
  }

  ghost predicate Inv(s: State) {
    Core(s) && Quiet(s)
  }

  // ---------------------------------------------------------------- the lock-held sections

  predicate AtRest(s: State) {
    s.link.inFlight.None? && !s.jobOpen && (s.open.Some? ==> s.link.engine.layers == [])
  }

  /** Everything but the connection and the savepoint flag. */
  predicate SameBooks(s: State, t: State) {
    t.open == s.open && t.holder == s.holder && t.next == s.next && t.past == s.past
  }

  lemma {:induction false} CalmKeeps(s: State, t: State)
    requires Core(s) && s.holder.None? && SameBooks(s, t) && Calm(s.link.engine, t.link.engine)
    requires t.link.inFlight != Some(Commit) && Books(t)
    ensures Core(t)
  {
  }

  lemma {:induction false} RollbackJobKeeps(w: World, s: State, undoing: bool)
    requires Core(s) && s.holder.None? && s.open.Some? && Undoes(w)
    ensures var r := RollbackJob(w, s, undoing);
            && Core(r.s) && SameBooks(s, r.s)
            && (r.reply == Ok ==> AtRest(r.s))
            && (r.reply == Err ==> r.s.link.inFlight.None? && (undoing ==> r.s.link.engine.layers == []))
            && (r.reply == Gone ==> r.s.link.inFlight.Some?)
  {
    RollbackToIsCalm(w, s.link, undoing);
    var r := SendAs(w, s, RollbackTo, undoing);
    CalmKeeps(s, r.s);
    if r.reply == Ok {
      EmptyReleaseIsCalm(w, r.s.link, undoing);
      var q := SendAs(w, r.s, Release, undoing);
      CalmKeeps(r.s, q.s);
      CalmKeeps(q.s, q.s.(jobOpen := false));
    }
  }

  /** What a section leaves alone. */
  predicate Keeps(s: State, t: State) {
    && t.holder == s.holder && t.next == s.next && t.past == s.past.(answers := t.past.answers)
  }

  /** A job is answered only if it waited for the batch. */
  predicate OnlyWaitersAnswered(s: State, t: State) {
    && (forall j :: j in t.past.answers ==> j in s.past.answers || j in Waiters(s))
    && (forall j :: j in Waiters(t) ==> j in Waiters(s))
  }

  /** Whatever became of its transaction, a batch may be dropped and its waiters told so. */
  lemma {:induction false} DenyKeeps(s: State, why: Why)
    requires Core(s) && s.holder.None? && s.link.inFlight.None?
    ensures Inv(Answered(s, Failed(why)).(jobOpen := false))
  {
  }

  lemma {:induction false} DiscardBatchKeeps(w: World, s: State, why: Why)
    requires Core(s) && s.holder.None?
    ensures var r := DiscardBatch(w, s, why);
            && Inv(r.s) && Keeps(s, r.s) && OnlyWaitersAnswered(s, r.s) && r.reply != Err
            && (r.reply == Ok ==> AtRest(r.s) && r.s.open.None?)
            && (r.reply == Gone ==> r.s.link.inFlight.Some?)
  {
    RollbackIsCalm(w, s.link);
    var r := Send(w, s, Rollback);
    CalmKeeps(s, r.s);
    if r.reply != Gone {
      DenyKeeps(r.s, why);
    }
  }

  lemma {:induction false} RollbackJobOrDiscardKeeps(w: World, s: State)
    requires Core(s) && s.holder.None? && s.open.Some? && Undoes(w)
    ensures var r := RollbackJobOrDiscard(w, s);
            && Inv(r.s) && Keeps(s, r.s) && OnlyWaitersAnswered(s, r.s)
            && (r.reply != Gone ==> AtRest(r.s))
  {
    RollbackJobKeeps(w, s, false);
    var r := RollbackJob(w, s, false);
    if r.reply == Err {
      DiscardBatchKeeps(w, r.s, TransactionLost);
    }
  }

  lemma {:induction false} SettleAbandonedKeeps(w: World, s: State)
    requires Inv(s) && s.holder.None? && s.link.inFlight.None? && Undoes(w)
    ensures var r := SettleAbandoned(w, s);
            Inv(r.s) && Keeps(s, r.s) && r.reply != Err && (r.reply == Ok ==> AtRest(r.s))
  {
    if s.jobOpen {
      RollbackJobOrDiscardKeeps(w, s);
    }
  }

  lemma {:induction false} UndoSavepointKeeps(w: World, s: State)
    requires Core(s) && s.holder.None? && s.open.Some? && Undoes(w)
    ensures var r := UndoSavepoint(w, s);
            Inv(r.s) && Keeps(s, r.s) && r.reply != Err && (r.reply == Ok ==> AtRest(r.s))
  {
    RollbackJobKeeps(w, s, true);
    var r := RollbackJob(w, s, true);
    CalmKeeps(r.s, r.s.(jobOpen := false));
  }

  /** COMMIT carried the transaction the batch began, so the whole batch is durable. */
  lemma {:induction false} CommitOkKeeps(s: State, t: State)
    requires Core(s) && s.holder.None? && s.open.Some? && s.link.engine.layers == [] && !s.jobOpen
    requires s.link.engine.inTx && SameBooks(s, t) && t.jobOpen == s.jobOpen
    requires t.link.engine == CommitOpen(s.link.engine) && t.link.inFlight.None?
    ensures Inv(Answered(t, Committed)) && AtRest(Answered(t, Committed))
  {
  }

  /** A dropped COMMIT: run, lost with its transaction, or never run. */
  lemma {:induction false} CommitGoneKeeps(s: State, t: State)
    requires Core(s) && s.holder.None? && s.open.Some? && s.link.engine.layers == [] && !s.jobOpen
    requires SameBooks(s, t) && t.jobOpen == s.jobOpen && t.link.inFlight == Some(Commit)
    requires t.link.engine == CommitOpen(s.link.engine) || Calm(s.link.engine, t.link.engine)
    requires t.link.engine.layers == []
    ensures Inv(t)
  {
  }

  lemma {:induction false} CommitEffect(w: World, l: Link)
    requires Shape(l.engine) && l.engine.layers == []
    ensures var c := Control(w, l, Commit, false);
            && c.0.engine.layers == []
            && (c.1 == Ok ==> l.engine.inTx && c.0.engine == CommitOpen(l.engine) && c.0.inFlight.None?)
            && (c.1 == Err ==> Calm(l.engine, c.0.engine) && c.0.inFlight.None?)
            && (c.1 == Gone ==> && c.0.inFlight == Some(Commit)
                                && (c.0.engine == CommitOpen(l.engine) || Calm(l.engine, c.0.engine)))
  {
  }

  lemma {:induction false} SettleUnknownCommitKeeps(w: World, s: State)
    requires Inv(s) && s.holder.None? && s.link.inFlight == Some(Commit)
    ensures var r := SettleUnknownCommit(w, s);
            && Inv(r.s) && Keeps(s, r.s) && r.reply != Err && (r.reply == Ok ==> AtRest(r.s))
  {
    if s.open.Some? {
      CommitEffect(w, s.link);
      var r := Send(w, s, Commit);
      match r.reply
      case Gone => CommitGoneKeeps(s, r.s);
      case Ok => CommitOkKeeps(s, r.s);
      case Err =>
        CalmKeeps(s, r.s);
        DiscardBatchKeeps(w, r.s, OutcomeUnknown);
    } else {
      assert s.link.engine == s.link.(inFlight := None).engine;
    }
  }

  lemma {:induction false} ReconcileKeeps(w: World, s: State)
    requires Inv(s) && s.holder.None? && Undoes(w)
    ensures var r := Reconcile(w, s);
            && Inv(r.s) && Keeps(s, r.s) && r.reply != Err && (r.reply == Ok ==> r.s.link.inFlight.None?)
  {
    if s.link.inFlight.Some? {
      match s.link.inFlight.value
      case Begin => DiscardBatchKeeps(w, s, OutcomeUnknown);
      case Rollback => DiscardBatchKeeps(w, s, OutcomeUnknown);
      case Commit => SettleUnknownCommitKeeps(w, s);
      case Savepoint => UndoSavepointKeeps(w, s);
      case Release => UndoSavepointKeeps(w, s);
      case RollbackTo => UndoSavepointKeeps(w, s);
    }
  }

  lemma {:induction false} CommitBatchKeeps(w: World, s: State)
    requires Core(s) && s.holder.None? && AtRest(s)
    ensures var r := CommitBatch(w, s); Inv(r.s) && Keeps(s, r.s)
  {
    if s.open.Some? {
      CommitEffect(w, s.link);
      var r := Send(w, s, Commit);
      match r.reply
      case Gone => CommitGoneKeeps(s, r.s);
      case Ok => CommitOkKeeps(s, r.s);
      case Err =>
        CalmKeeps(s, r.s);
        RollbackIsCalm(w, r.s.link);
        var q := Send(w, r.s, Rollback);
        CalmKeeps(r.s, q.s);
        if q.reply != Gone {
          DenyKeeps(q.s, CommitFailed);
        }
    }
  }

  // ---------------------------------------------------------------- the steps

  lemma {:induction false} JoinBatchKeeps(w: World, s: State)
    requires Core(s) && s.holder.None? && AtRest(s)
    ensures var r := JoinBatch(w, s);
            Inv(r.s) && Keeps(s, r.s) && (r.reply == Ok ==> AtRest(r.s) && r.s.open.Some?)
  {
  }

  lemma {:induction false} OpenSavepointKeeps(w: World, s: State)
    requires Core(s) && s.holder.None? && AtRest(s) && s.open.Some?
    ensures var r := OpenSavepoint(w, s);
            && Inv(r.s) && r.s.holder.None? && r.s.open.Some?
            && (r.reply == Ok ==> r.s.jobOpen && r.s.link.inFlight.None? && r.s.link.engine.layers == [{}])
  {
  }

  lemma {:induction false} BeginJobKeeps(w: World, s: State)
    requires Inv(s) && s.holder.None? && Undoes(w)
    ensures Inv(BeginJob(w, s))
  {
    ReconcileKeeps(w, s);
    var c := Reconcile(w, s);
    if c.reply == Ok {
      SettleAbandonedKeeps(w, c.s);
      var a := SettleAbandoned(w, c.s);
      if a.reply == Ok {
        JoinBatchKeeps(w, a.s);
        var b := JoinBatch(w, a.s);
        if b.reply == Ok {
          OpenSavepointKeeps(w, b.s);
        }
      }
    }
  }

  lemma {:induction false} SettleAndCommitKeeps(w: World, s: State, commit: bool)
    requires Inv(s) && s.holder.None? && Undoes(w)
    ensures Inv(SettleAndCommit(w, s, commit)) && Keeps(s, SettleAndCommit(w, s, commit))
  {
    ReconcileKeeps(w, s);
    var c := Reconcile(w, s);
    if c.reply == Ok {
      SettleAbandonedKeeps(w, c.s);
      var a := SettleAbandoned(w, c.s);
      if a.reply == Ok {
        CommitBatchKeeps(w, a.s);
      }
    }
  }

  /** The RELEASE that ends a running job: its writes join the batch's, or, in a transaction its
      own savepoint opened, are committed then and there. */
  lemma {:induction false} ReleaseEffect(w: World, s: State)
    requires Inv(s) && s.holder.Some?
    ensures var r := Send(w, Unhold(s), Release);
            && Core(r.s) && (r.reply == Gone ==> r.s.link.inFlight == Some(Release))
            && (r.reply == Ok ==> && r.s.link.engine.layers == [] && r.s.link.inFlight.None?
                                  && (r.s.link.engine.inTx ==>
                                        forall x :: x in s.past.written && x.job == s.holder.value && x !in s.past.stray
                                                    ==> x in r.s.link.engine.base))
            && (r.reply == Err ==> r.s.link.inFlight.None?)
  {
    var e := s.link.engine;
    if e.inTx {
      assert e.layers == [e.layers[0]];
      UnionOfOne(e.layers[0]);
    }
  }

  lemma {:induction false} ReleasedJoins(w: World, s: State)
    requires Inv(s) && s.holder.Some? && Send(w, Unhold(s), Release).reply == Ok
    ensures var t := EndJob(w, Unhold(s)).s;
            && Inv(t) && Keeps(Unhold(s), t) && AtRest(t) && t.open.Some? && Core(Enlist(t, s.holder.value))
            && s.holder.value !in t.past.answers && s.holder.value !in Waiters(t)
  {
    ReleaseEffect(w, s);
    var t := EndJob(w, Unhold(s)).s;
    assert Core(t);
    assert Core(Enlist(t, s.holder.value));
  }

  lemma {:induction false} RefusedFails(w: World, s: State)
    requires Inv(s) && s.holder.Some? && Undoes(w) && Send(w, Unhold(s), Release).reply == Err
    ensures var r := EndJob(w, Unhold(s));
            && r.reply != Ok && Inv(r.s) && Keeps(Unhold(s), r.s)
            && s.holder.value !in r.s.past.answers && s.holder.value !in Waiters(r.s)
  {
    ReleaseEffect(w, s);
    RollbackJobOrDiscardKeeps(w, Send(w, Unhold(s), Release).s);
  }

  lemma {:induction false} EndJobKeeps(w: World, s: State)
    requires Inv(s) && s.holder.Some? && Undoes(w)
    ensures var r := EndJob(w, Unhold(s));
            && Inv(r.s) && Keeps(Unhold(s), r.s)
            && s.holder.value !in r.s.past.answers && s.holder.value !in Waiters(r.s)
            && (r.reply == Ok ==> AtRest(r.s) && r.s.open.Some? && Core(Enlist(r.s, s.holder.value)))
  {
    match Send(w, Unhold(s), Release).reply
    case Gone => ReleaseEffect(w, s);
    case Ok => ReleasedJoins(w, s);
    case Err => RefusedFails(w, s);
  }

  lemma {:induction false} TellFailedKeeps(s: State, j: Job, why: Why)
    requires Inv(s) && j in s.past.finished && j !in Waiters(s) && j !in s.past.answers
    ensures Inv(Tell(s, j, Failed(why)))
  {
  }

  lemma {:induction false} AnsweredWith(s: State, j: Job, a: Answer)
    requires s.open.Some?
    ensures Tell(Answered(s, a), j, a) == Answered(Enlist(s, j), a)
  {
    assert Answered(s, a).past.answers[j := a] == Answered(Enlist(s, j), a).past.answers;
  }

  /** The committer is answered as if it had been one of the waiters. */
  lemma {:induction false} CommitterIsAWaiter(w: World, s: State, j: Job)
    requires s.open.Some? && CommitBatch(w, s).reply != Gone
    ensures var c := CommitBatch(w, s);
            Tell(c.s, j, if c.reply == Ok then Committed else Failed(CommitFailed))
            == CommitBatch(w, Enlist(s, j)).s
  {
    var r := Send(w, s, Commit);
    if r.reply == Ok {
      AnsweredWith(r.s, j, Committed);
    } else {
      AnsweredWith(Send(w, r.s, Rollback).s, j, Failed(CommitFailed));
    }
  }

  lemma {:induction false} FinishKeeps(w: World, s: State, others: bool)
    requires Inv(s) && s.holder.Some? && Undoes(w)
    ensures Inv(Finish(w, s, others))
  {
    var j := s.holder.value;
    EndJobKeeps(w, s);
    var r := EndJob(w, Unhold(s));
    if r.reply == Err {
      TellFailedKeeps(r.s, j, ReleaseFailed);
    } else if r.reply == Ok {
      CommitBatchKeeps(w, r.s);
      CommitBatchKeeps(w, Enlist(r.s, j));
      if CommitBatch(w, r.s).reply != Gone {
        CommitterIsAWaiter(w, r.s, j);
      }
    }
  }

  lemma {:induction false} FailKeeps(w: World, s: State, others: bool)
    requires Inv(s) && s.holder.Some? && Undoes(w)
    ensures Inv(Fail(w, s, others))
  {
    var t := s.(holder := None);
    RollbackJobOrDiscardKeeps(w, t);
    var r := RollbackJobOrDiscard(w, t);
    if r.reply == Ok {
      CommitBatchKeeps(w, r.s);
    }
  }

  lemma {:induction false} JobWriteKeeps(s: State, n: nat)
    requires Inv(s) && s.holder.Some?
    ensures Inv(JobWrite(s, n))
  {
    var t := JobWrite(s, n);
    assert Memory(t) && Places(t) && Running(t);
    assert WaitersHeld(t) && OkIsDurable(t) && OnlyFinished(t);
  }

  lemma {:induction false} StepKeeps(w: World, s: State, ev: Event)
    requires Inv(s) && Undoes(w)
    ensures Inv(Step(w, s, ev))
  {
    if s.holder.None? {
      match ev
      case BeginsJob => BeginJobKeeps(w, s);
      case Locks(commit) => SettleAndCommitKeeps(w, s, commit);
      case WaiterLocks(idle) =>
        ReconcileKeeps(w, s);
        SettleAndCommitKeeps(w, s, true);
      case _ =>
    } else {
      match ev
      case Writes(n) => JobWriteKeeps(s, n);
      case Finishes(others) => FinishKeeps(w, s, others);
      case Fails(others) => FailKeeps(w, s, others);
      case _ =>
    }
  }

  // ---------------------------------------------------------------- the theorems

  /** The invariant of every run, whatever the schedule, the faults and the dropped callers. */
  lemma {:induction false} RunKeeps(w: World, events: seq<Event>)
    requires Undoes(w)
    ensures Inv(Run(w, events))
    decreases |events|
  {
    if events != [] {
      var front, last := events[..|events| - 1], events[|events| - 1];
      RunKeeps(w, front);
      StepKeeps(w, Run(w, front), last);
    }
  }

  /** The job's caller was told COMMIT carried it, and it did. */
  lemma {:induction false} CommittedIsDurable(w: World, events: seq<Event>, x: Write)
    requires Undoes(w)
    requires var s := Run(w, events);
             x in s.past.written && x.job in s.past.answers && s.past.answers[x.job] == Committed
    ensures x in Run(w, events).link.engine.committed
  {
    RunKeeps(w, events);
  }

  /** A write of a job that failed or was dropped half way is durable exactly when the engine had
      ended the transaction under the job before the job made it. */
  lemma {:induction false} UnfinishedDurableExactly(w: World, events: seq<Event>, x: Write)
    requires Undoes(w) && x.job !in Run(w, events).past.finished
    ensures x in Run(w, events).link.engine.committed <==> x in Run(w, events).past.stray
  {
    RunKeeps(w, events);
  }
}
