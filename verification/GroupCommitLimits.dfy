/**
  Exactly when group commit keeps its promises: each holds of every run of an engine if and only if
  the engine lacks the faults named, and each fault comes with the run that breaks the promise.
 */
module GroupCommitLimits {
  import opened Options
  import opened GroupCommit
  import opened GroupCommitSafety
  import opened GroupCommitDenied
  import opened GroupCommitSteady

  lemma {:induction false} RunSnoc(w: World, events: seq<Event>, ev: Event)
    ensures Run(w, events + [ev]) == Step(w, Run(w, events), ev)
  {
    assert (events + [ev])[..|events|] == events;
  }

  lemma {:induction false} RunOne(w: World, ev: Event)
    ensures Run(w, [ev]) == Step(w, Initial, ev)
  {
    assert [ev][..0] == [];
  }

  const A: Write := Write(0, 0)
  const B: Write := Write(1, 0)

  // ---------------------------------------------------------------- an undo that is refused

  /** Statements 2 and 6 lose their callers before they run; statement 3, the undo, is refused. */
  function UndoWorld(f: Faults): World {
    World(t => if t == 2 || t == 6 then GoneUnrun else if t == 3 then Refused else Runs, f, 128)
  }

  /** A job writes and fails, and its caller is dropped mid ROLLBACK TO. */
  function DroppedFail(): seq<Event> {
    [BeginsJob] + [Writes(0)] + [Fails(true)]
  }

  lemma {:induction false} DroppedFailEnds(f: Faults)
    ensures Run(UndoWorld(f), DroppedFail())
            == State(Link(Engine(true, false, {}, [{A}], {}), Some(RollbackTo), 3), Some(Batch(0, {})), true, None, 1,
                     History(map[], {A}, {}, {}, false))
  {
    var w := UndoWorld(f);
    RunOne(w, BeginsJob);
    RunSnoc(w, [BeginsJob], Writes(0));
    var none: set<Write> := {};
    assert none + {A} == {A} && [none][0 := {A}] == [{A}];
    RunSnoc(w, [BeginsJob] + [Writes(0)], Fails(true));
  }

  /** The undo is refused, its savepoint stays; the waiter's COMMIT then carries the failed job. */
  lemma {:induction false} FailedJobCommits(f: Faults)
    requires f.refusesUndo
    ensures var s := Run(UndoWorld(f), DroppedFail() + [WaiterLocks(true)]);
            A in s.link.engine.committed && A.job !in s.past.finished && A !in s.past.stray
  {
    var w := UndoWorld(f);
    DroppedFailEnds(f);
    RunSnoc(w, DroppedFail(), WaiterLocks(true));
    var s := Run(w, DroppedFail());
    var t := s.(link := Link(Engine(true, false, {}, [{A}], {}), None, 4), jobOpen := false);
    assert Reconcile(w, s) == R(t, Ok);
    UnionOfOne({A});
    assert CommitBatch(w, t).s.link.engine.committed == {A};
  }

  /** Instead a second job runs above that savepoint, writes, and waits for the COMMIT. */
  function SecondWaits(): seq<Event> {
    DroppedFail() + [BeginsJob] + [Writes(0)] + [Finishes(true)]
  }

  lemma {:induction false} SecondBegins(f: Faults)
    requires f.refusesUndo
    ensures Run(UndoWorld(f), DroppedFail() + [BeginsJob])
            == State(Link(Engine(true, false, {}, [{A}, {}], {}), None, 5), Some(Batch(0, {})), true, Some(1), 2,
                     History(map[], {A}, {}, {}, false))
  {
    DroppedFailEnds(f);
    RunSnoc(UndoWorld(f), DroppedFail(), BeginsJob);
    var none: set<Write> := {};
    assert [{A}] + [none] == [{A}, none];
  }

  lemma {:induction false} SecondWaitsEnds(f: Faults)
    requires f.refusesUndo
    ensures Run(UndoWorld(f), SecondWaits())
            == State(Link(Engine(true, false, {}, [{A, B}], {}), None, 6), Some(Batch(1, {1})), false, None, 2,
                     History(map[], {A, B}, {}, {1}, false))
  {
    var w := UndoWorld(f);
    SecondBegins(f);
    var p := DroppedFail() + [BeginsJob];
    RunSnoc(w, p, Writes(0));
    var none: set<Write> := {};
    assert none + {B} == {B} && [{A}, none][1 := {B}] == [{A}, {B}] && {A} + {B} == {A, B};
    assert Run(w, p + [Writes(0)])
           == State(Link(Engine(true, false, {}, [{A}, {B}], {}), None, 5), Some(Batch(0, {})), true, Some(1), 2,
                    History(map[], {A, B}, {}, {}, false));
    RunSnoc(w, p + [Writes(0)], Finishes(true));
    assert [{A}, {B}][..0] + [{A} + {B}] == [{A, B}];
    var nobody: set<Job> := {};
    assert nobody + {1} == {1};
  }

  /** A third caller is dropped before its SAVEPOINT runs; undoing that rolls back to the savepoint
      left behind, and the second job is told it is durable. */
  function UndoRun(): seq<Event> {
    SecondWaits() + [BeginsJob] + [WaiterLocks(true)]
  }

  lemma {:induction false} ThirdDropped(f: Faults)
    requires f.refusesUndo
    ensures Run(UndoWorld(f), SecondWaits() + [BeginsJob])
            == State(Link(Engine(true, false, {}, [{A, B}], {}), Some(Savepoint), 7), Some(Batch(1, {1})), false, None, 2,
                     History(map[], {A, B}, {}, {1}, false))
  {
    SecondWaitsEnds(f);
    RunSnoc(UndoWorld(f), SecondWaits(), BeginsJob);
  }

  lemma {:induction false} CommittedButLost(f: Faults)
    requires f.refusesUndo
    ensures var s := Run(UndoWorld(f), UndoRun());
            && B in s.past.written && B.job in s.past.answers && s.past.answers[B.job] == Committed
            && B !in s.link.engine.committed && !s.past.orphaned
  {
    var w := UndoWorld(f);
    ThirdDropped(f);
    var s := Run(w, SecondWaits() + [BeginsJob]);
    RunSnoc(w, SecondWaits() + [BeginsJob], WaiterLocks(true));
    var none: set<Write> := {};
    assert [{A, B}][0 := none] == [none];
    assert none + none == none;
    var t := s.(link := Link(Engine(true, false, {}, [], {}), None, 9));
    assert Reconcile(w, s) == R(t, Ok);
    assert CommitBatch(w, t).s.past.answers == map[1 := Committed];
  }

  // ---------------------------------------------------------------- an engine that aborts

  /** Only the third statement loses its caller. */
  function AbortWorld(f: Faults): World {
    World(t => if t == 2 then GoneUnrun else Runs, f, 128)
  }

  /** A job's own statement fails and ends the transaction; its caller is dropped mid ROLLBACK TO. */
  function FailedStatement(): seq<Event> {
    [BeginsJob] + [Writes(0)] + [EngineAborts] + [Fails(true)]
  }

  lemma {:induction false} FailedStatementEnds(f: Faults)
    requires f.aborts
    ensures Run(AbortWorld(f), FailedStatement())
            == State(Link(Engine(false, false, {}, [], {}), Some(RollbackTo), 3), Some(Batch(0, {})), true, None, 1,
                     History(map[], {A}, {}, {}, false))
  {
    var w := AbortWorld(f);
    RunOne(w, BeginsJob);
    RunSnoc(w, [BeginsJob], Writes(0));
    var none: set<Write> := {};
    assert none + {A} == {A} && [none][0 := {A}] == [{A}];
    RunSnoc(w, [BeginsJob] + [Writes(0)], EngineAborts);
    RunSnoc(w, [BeginsJob] + [Writes(0)] + [EngineAborts], Fails(true));
  }

  /** The batch is kept: the next job's SAVEPOINT opens a transaction of its own, its RELEASE commits
      it, and the batch's COMMIT is refused for want of one. */
  function OrphanRun(): seq<Event> {
    FailedStatement() + [BeginsJob] + [Writes(0)] + [Finishes(false)]
  }

  lemma {:induction false} OrphanRuns(f: Faults)
    requires f.aborts
    ensures Run(AbortWorld(f), FailedStatement() + [BeginsJob] + [Writes(0)])
            == State(Link(Engine(true, true, {}, [{B}], {}), None, 5), Some(Batch(0, {})), true, Some(1), 2,
                     History(map[], {A, B}, {}, {}, true))
  {
    var w := AbortWorld(f);
    FailedStatementEnds(f);
    RunSnoc(w, FailedStatement(), BeginsJob);
    var none: set<Write> := {};
    assert none + {B} == {B} && [none][0 := {B}] == [{B}] && {A} + {B} == {A, B};
    RunSnoc(w, FailedStatement() + [BeginsJob], Writes(0));
  }

  lemma {:induction false} DeniedButDurable(f: Faults)
    requires f.aborts
    ensures var s := Run(AbortWorld(f), OrphanRun());
            && s.past.orphaned && B !in s.past.stray && WasDenied(s, B) && s.past.answers[B.job] == Failed(CommitFailed)
            && B in s.link.engine.committed
  {
    var w := AbortWorld(f);
    OrphanRuns(f);
    var p := FailedStatement() + [BeginsJob] + [Writes(0)];
    RunSnoc(w, p, Finishes(false));
    UnionOfOne({B});
    var r := EndJob(w, Unhold(Run(w, p)));
    assert r.reply == Ok && !r.s.link.engine.inTx && r.s.link.engine.committed == {B};
    assert CommitBatch(w, r.s).reply == Err;
  }

  /** Every statement runs as asked. */
  function CalmWorld(f: Faults): World {
    World(t => Runs, f, 128)
  }

  lemma {:induction false} WritesOn(f: Faults)
    requires f.aborts
    ensures Run(CalmWorld(f), [BeginsJob] + [EngineAborts] + [Writes(0)])
            == State(Link(Engine(false, false, {}, [], {A}), None, 2), Some(Batch(0, {})), true, Some(0), 1,
                     History(map[], {A}, {A}, {}, false))
  {
    var w := CalmWorld(f);
    RunOne(w, BeginsJob);
    RunSnoc(w, [BeginsJob], EngineAborts);
    RunSnoc(w, [BeginsJob] + [EngineAborts], Writes(0));
    var none: set<Write> := {};
    assert none + {A} == {A};
  }

  /** A job writes on after the engine ended the transaction under it: its writes are durable at once,
      though it is told its RELEASE failed, and no batch was orphaned. */
  lemma {:induction false} DeniedAfterWritingOn(f: Faults)
    requires f.aborts
    ensures var s := Run(CalmWorld(f), [BeginsJob] + [EngineAborts] + [Writes(0)] + [Finishes(false)]);
            !s.past.orphaned && WasDenied(s, A) && A in s.past.stray && A in s.link.engine.committed
  {
    WritesOn(f);
    RunSnoc(CalmWorld(f), [BeginsJob] + [EngineAborts] + [Writes(0)], Finishes(false));
  }

  /** And so they are though it fails. */
  lemma {:induction false} FailedAfterWritingOn(f: Faults)
    requires f.aborts
    ensures var s := Run(CalmWorld(f), [BeginsJob] + [EngineAborts] + [Writes(0)] + [Fails(false)]);
            A in s.link.engine.committed && A.job !in s.past.finished
  {
    WritesOn(f);
    RunSnoc(CalmWorld(f), [BeginsJob] + [EngineAborts] + [Writes(0)], Fails(false));
  }

  // ---------------------------------------------------------------- a ROLLBACK that is refused

  /** The COMMIT is refused, and the ROLLBACK after it. */
  function RollbackWorld(f: Faults): World {
    World(t => if t == 3 || t == 4 then Refused else Runs, f, 128)
  }

  lemma {:induction false} DeniedButPending(f: Faults)
    requires f.refusesRollback
    ensures var s := Run(RollbackWorld(f), [BeginsJob] + [Writes(0)] + [Finishes(false)]);
            WasDenied(s, A) && A in Pending(s.link.engine)
  {
    var w := RollbackWorld(f);
    OneWrites(f);
    RunSnoc(w, [BeginsJob] + [Writes(0)], Finishes(false));
    var r := EndJob(w, Unhold(Run(w, [BeginsJob] + [Writes(0)])));
    assert r.reply == Ok && r.s.link == Link(Engine(true, false, {A}, [], {}), None, 3);
    assert CommitBatch(w, r.s).reply == Err;
  }

  lemma {:induction false} OneWrites(f: Faults)
    ensures Run(RollbackWorld(f), [BeginsJob] + [Writes(0)])
            == State(Link(Engine(true, false, {}, [{A}], {}), None, 2), Some(Batch(0, {})), true, Some(0), 1,
                     History(map[], {A}, {}, {}, false))
  {
    var w := RollbackWorld(f);
    RunOne(w, BeginsJob);
    RunSnoc(w, [BeginsJob], Writes(0));
    var none: set<Write> := {};
    assert none + {A} == {A} && [none][0 := {A}] == [{A}];
  }

  // ---------------------------------------------------------------- the promises, exactly

  /** In every run, whoever is told COMMIT carried its job is durable. */
  ghost predicate CommittedPromise(f: Faults) {
    forall w: World, events: seq<Event> :: w.faults == f ==> OkIsDurable(Run(w, events))
  }

  /** In every run, no write of a job told its batch failed is durable. */
  ghost predicate DeniedPromise(f: Faults) {
    forall w: World, events: seq<Event>, x: Write :: w.faults == f && WasDenied(Run(w, events), x)
      ==> x !in Run(w, events).link.engine.committed
  }

  /** Nor is it pending in a transaction still open. */
  ghost predicate CleanPromise(f: Faults) {
    forall w: World, events: seq<Event>, x: Write :: w.faults == f && WasDenied(Run(w, events), x)
      ==> Nowhere(Run(w, events).link.engine, x)
  }

  /** In every run, only jobs that were finished commit. */
  ghost predicate FinishedPromise(f: Faults) {
    forall w: World, events: seq<Event>, x: Write :: w.faults == f && x in Run(w, events).link.engine.committed
      ==> x.job in Run(w, events).past.finished
  }

  lemma {:induction false} CommittedExactly(f: Faults)
    ensures CommittedPromise(f) <==> !f.refusesUndo
  {
    if f.refusesUndo {
      CommittedButLost(f);
      assert !OkIsDurable(Run(UndoWorld(f), UndoRun()));
    } else {
      forall w: World, events: seq<Event> | w.faults == f
        ensures OkIsDurable(Run(w, events))
      {
        GroupCommitSafety.RunKeeps(w, events);
      }
    }
  }

  lemma {:induction false} DeniedExactly(f: Faults)
    ensures DeniedPromise(f) <==> !f.aborts
  {
    if f.aborts {
      DeniedButDurable(f);
      var w, events := AbortWorld(f), OrphanRun();
      assert WasDenied(Run(w, events), B);
    } else {
      forall w: World, events: seq<Event>, x: Write | w.faults == f && WasDenied(Run(w, events), x)
        ensures x !in Run(w, events).link.engine.committed
      {
        RunStays(w, events);
        DeniedDurableExactly(w, events, x);
      }
    }
  }

  lemma {:induction false} CleanExactly(f: Faults)
    ensures CleanPromise(f) <==> !f.aborts && !f.refusesRollback
  {
    if f.aborts {
      DeniedButDurable(f);
      var w, events := AbortWorld(f), OrphanRun();
      assert WasDenied(Run(w, events), B);
    } else if f.refusesRollback {
      DeniedButPending(f);
      var w, events := RollbackWorld(f), [BeginsJob] + [Writes(0)] + [Finishes(false)];
      assert WasDenied(Run(w, events), A);
    } else {
      forall w: World, events: seq<Event>, x: Write | w.faults == f && WasDenied(Run(w, events), x)
        ensures Nowhere(Run(w, events).link.engine, x)
      {
        RunStays(w, events);
        DeniedNowhereExactly(w, events, x);
      }
    }
  }

  lemma {:induction false} FinishedExactly(f: Faults)
    ensures FinishedPromise(f) <==> !f.aborts && !f.refusesUndo
  {
    if f.refusesUndo {
      FailedJobCommits(f);
      var w, events := UndoWorld(f), DroppedFail() + [WaiterLocks(true)];
      assert A in Run(w, events).link.engine.committed;
    } else if f.aborts {
      FailedAfterWritingOn(f);
      var w, events := CalmWorld(f), [BeginsJob] + [EngineAborts] + [Writes(0)] + [Fails(false)];
      assert A in Run(w, events).link.engine.committed;
    } else {
      forall w: World, events: seq<Event>, x: Write | w.faults == f && x in Run(w, events).link.engine.committed
        ensures x.job in Run(w, events).past.finished
      {
        RunStays(w, events);
        if x.job !in Run(w, events).past.finished {
          UnfinishedDurableExactly(w, events, x);
        }
      }
    }
  }
}
