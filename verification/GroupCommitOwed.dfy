/**
  What an engine that refuses nothing owes its callers. Then group commit is a simple batch: finished
  jobs wait, and the first job that finds no other writer pending, or fills the batch, makes them all
  durable and answers them.
 */
module GroupCommitOwed {
  import opened Options
  import opened GroupCommit
  import opened GroupCommitSafety

  /** Every statement runs, and no caller is dropped while it awaits one. */
  ghost predicate Obliging(w: World) {
    forall tick :: w.fate(tick) == Runs
  }

  predicate NoAborts(events: seq<Event>) {
    forall i :: 0 <= i < |events| ==> !events[i].EngineAborts?
  }

  // ---------------------------------------------------------------- the simple batch

  /** `held` are the writes of the `waiting` jobs, `own` those of the `running` one; `told` are the
      jobs answered, each that its COMMIT carried it. */
  datatype Ideal = Ideal(durable: set<Write>, held: set<Write>, waiting: set<Job>, told: set<Job>,
                         running: Option<Job>, own: set<Write>, next: Job)

  const Start: Ideal := Ideal({}, {}, {}, {}, None, {}, 0)

  /** Everyone waiting is made durable and told so. */
  function Flush(m: Ideal): Ideal {
    m.(durable := m.durable + m.held, held := {}, told := m.told + m.waiting, waiting := {})
  }

  /** The running job joins those that wait. */
  function Join(m: Ideal): Ideal
    requires m.running.Some?
  {
    m.(held := m.held + m.own, own := {}, waiting := m.waiting + {m.running.value}, running := None)
  }

  function Undo(m: Ideal): Ideal {
    m.(running := None, own := {})
  }

  /** One event, in a batch of at most `cap` jobs. */
  function Serve(cap: nat, m: Ideal, ev: Event): Ideal {
    if m.running.None? then
      match ev
      case BeginsJob => m.(running := Some(m.next), own := {}, next := m.next + 1)
      case Locks(commit) => if commit then Flush(m) else m
      case WaiterLocks(idle) => if idle then Flush(m) else m
      case _ => m
    else
      match ev
      case Writes(n) => m.(own := m.own + {Write(m.running.value, n)})
      case Finishes(others) => if !others || |m.waiting| + 1 >= cap then Flush(Join(m)) else Join(m)
      case Fails(others) => if others then Undo(m) else Flush(Undo(m))
      case DropsJob => Undo(m)
      case _ => m
  }

  function Served(cap: nat, events: seq<Event>): Ideal {
    if events == [] then Start else Serve(cap, Served(cap, events[..|events| - 1]), events[|events| - 1])
  }

  // ---------------------------------------------------------------- the refinement

  /** `s` is the simple batch `m`: one transaction while a batch is open, one savepoint while a job is,
      and nobody told anything but that COMMIT carried it. */
  ghost predicate Is(s: State, m: Ideal) {
    var e := s.link.engine;
    && s.link.inFlight.None? && !e.implicit && e.inTx == s.open.Some? && s.past.stray == {}
    && (!e.inTx ==> e == RollbackOpen(e)) && (s.jobOpen ==> s.open.Some?) && (s.holder.Some? ==> s.jobOpen)
    && (if s.jobOpen then |e.layers| == 1 else e.layers == [])
    && e.committed == m.durable && e.base == m.held && Waiters(s) == m.waiting
    && (s.open.Some? ==> s.open.value.jobs == |m.waiting|)
    && s.holder == m.running && s.next == m.next && s.past.answers.Keys == m.told
    && (s.holder.Some? ==> e.layers[0] == m.own) && (s.holder.None? ==> m.own == {})
    && forall j :: j in s.past.answers ==> s.past.answers[j] == Committed
  }

  /** At rest between jobs: nothing is left on the connection of a job that failed or was dropped. */
  ghost predicate Idle(s: State, m: Ideal) {
    Is(s, m) && s.holder.None? && !s.jobOpen
  }

  lemma {:induction false} Runs1(w: World, l: Link, st: Statement, undoing: bool)
    requires Obliging(w)
    ensures var ran := Perform(l.engine, st);
            Control(w, l, st, undoing) == (Link(ran.0, None, l.tick + 1), if ran.1 then Ok else Err)
  {
    assert w.fate(l.tick) == Runs;
  }

  /** An abandoned or failed job is undone. */
  lemma {:induction false} RollbackIdles(w: World, s: State, m: Ideal)
    requires Obliging(w) && Is(s, m) && s.holder.None? && s.jobOpen
    ensures var r := RollbackJobOrDiscard(w, s); r.reply == Ok && Idle(r.s, m) && r.s.past == s.past && r.s.open == s.open
  {
    var e := s.link.engine;
    Runs1(w, s.link, RollbackTo, false);
    var r := SendAs(w, s, RollbackTo, false);
    assert r.reply == Ok && r.s.link.engine == e.(layers := [{}]);
    Runs1(w, r.s.link, Release, false);
    assert e.base + {} == e.base;
  }

  lemma {:induction false} SettleIdles(w: World, s: State, m: Ideal)
    requires Obliging(w) && Is(s, m) && s.holder.None?
    ensures var r := SettleAbandoned(w, s); r.reply == Ok && Idle(r.s, m) && r.s.past == s.past && r.s.open == s.open
  {
    if s.jobOpen {
      RollbackIdles(w, s, m);
    }
  }

  lemma {:induction false} NothingToFlush(s: State, m: Ideal)
    requires Idle(s, m) && s.open.None?
    ensures Flush(m) == m
  {
    assert m.held == {} && m.waiting == {};
    assert m.durable + {} == m.durable && m.told + {} == m.told;
  }

  lemma {:induction false} AnsweredFlushes(s: State, m: Ideal, l: Link)
    requires Idle(s, m) && s.open.Some?
    requires l.inFlight.None? && l.engine == RollbackOpen(s.link.engine).(committed := m.durable + m.held)
    ensures Idle(Answered(s.(link := l), Committed), Flush(m))
  {
  }

  /** COMMIT answers everyone who waits. */
  lemma {:induction false} CommitFlushes(w: World, s: State, m: Ideal)
    requires Obliging(w) && Idle(s, m)
    ensures var r := CommitBatch(w, s); r.reply == Ok && Idle(r.s, Flush(m))
  {
    if s.open.Some? {
      Runs1(w, s.link, Commit, false);
      var r := Send(w, s, Commit);
      assert r.reply == Ok && m.durable + m.held + {} == m.durable + m.held;
      AnsweredFlushes(s, m, r.s.link);
    } else {
      NothingToFlush(s, m);
    }
  }

  lemma {:induction false} SavepointOpens(w: World, s: State, m: Ideal)
    requires Obliging(w) && Idle(s, m) && s.open.Some?
    ensures var r := OpenSavepoint(w, s);
            && r.reply == Ok && r.s.jobOpen && r.s.next == s.next && r.s.open == s.open && r.s.past == s.past
            && r.s.link == Link(s.link.engine.(layers := [{}]), None, s.link.tick + 1)
  {
    Runs1(w, NoteOrphan(s).link, Savepoint, false);
    var none: set<Write> := {};
    assert [] + [none] == [none];
  }

  lemma {:induction false} BeginOpens(w: World, s: State, m: Ideal)
    requires Obliging(w) && Idle(s, m)
    ensures var r := JoinBatch(w, s); r.reply == Ok && Idle(r.s, m) && r.s.open.Some?
  {
    if s.open.None? {
      Runs1(w, s.link, Begin, false);
    }
  }

  lemma {:induction false} BeginJobServes(w: World, s: State, m: Ideal)
    requires Obliging(w) && Is(s, m) && s.holder.None?
    ensures Is(BeginJob(w, s), Serve(w.cap, m, BeginsJob))
  {
    SettleIdles(w, s, m);
    var a := SettleAbandoned(w, s).s;
    BeginOpens(w, a, m);
    var b := JoinBatch(w, a).s;
    SavepointOpens(w, b, m);
    var t := OpenSavepoint(w, b).s;
    assert BeginJob(w, s) == t.(holder := Some(t.next), next := t.next + 1);
  }

  lemma {:induction false} EndJobJoins(w: World, s: State, m: Ideal)
    requires Obliging(w) && Is(s, m) && s.holder.Some? && Places(s) && s.holder.value !in s.past.finished
    ensures var r := EndJob(w, Unhold(s));
            && r.reply == Ok && r.s.open.Some? && r.s.open.value.jobs == |m.waiting| + 1
            && Idle(Enlist(r.s, s.holder.value), Join(m)) && s.holder.value !in m.waiting
  {
    var e := s.link.engine;
    assert e.layers == [e.layers[0]];
    Runs1(w, Unhold(s).link, Release, false);
  }

  lemma {:induction false} LastFlushes(w: World, s: State, j: Job, m: Ideal)
    requires Obliging(w) && s.open.Some? && Idle(Enlist(s, j), m)
    ensures var c := CommitBatch(w, s); c.reply == Ok && Idle(Tell(c.s, j, Committed), Flush(m))
  {
    CommitFlushes(w, Enlist(s, j), m);
    CommitReply(w, s, j);
    CommitterIsAWaiter(w, s, j);
  }

  /** `finish` after its RELEASE ran. */
  lemma {:induction false} FinishIs(w: World, s: State, others: bool)
    requires s.holder.Some? && EndJob(w, Unhold(s)).reply == Ok
    ensures var r, j := EndJob(w, Unhold(s)).s, s.holder.value;
            && (others && r.open.value.jobs < w.cap ==> Finish(w, s, others) == Enlist(r, j))
            && (!(others && r.open.value.jobs < w.cap) && CommitBatch(w, r).reply == Ok
                ==> Finish(w, s, others) == Tell(CommitBatch(w, r).s, j, Committed))
  {
  }

  lemma {:induction false} FinishServes(w: World, s: State, m: Ideal, others: bool)
    requires Obliging(w) && Is(s, m) && s.holder.Some? && Places(s) && s.holder.value !in s.past.finished
    ensures Is(Finish(w, s, others), Serve(w.cap, m, Finishes(others)))
  {
    EndJobJoins(w, s, m);
    FinishIs(w, s, others);
    if !others || |m.waiting| + 1 >= w.cap {
      LastFlushes(w, EndJob(w, Unhold(s)).s, s.holder.value, Join(m));
    }
  }

  lemma {:induction false} CommitReply(w: World, s: State, j: Job)
    requires s.open.Some?
    ensures CommitBatch(w, s).reply == CommitBatch(w, Enlist(s, j)).reply
  {
  }

  lemma {:induction false} FailServes(w: World, s: State, m: Ideal, others: bool)
    requires Obliging(w) && Is(s, m) && s.holder.Some?
    ensures Is(Fail(w, s, others), Serve(w.cap, m, Fails(others)))
  {
    var t := s.(holder := None);
    RollbackIdles(w, t, Undo(m));
    if !others {
      CommitFlushes(w, RollbackJobOrDiscard(w, t).s, Undo(m));
    }
  }

  lemma {:induction false} LockServes(w: World, s: State, m: Ideal, commit: bool)
    requires Obliging(w) && Is(s, m) && s.holder.None?
    ensures Is(SettleAndCommit(w, s, commit), if commit then Flush(m) else m)
  {
    SettleIdles(w, s, m);
    if commit {
      CommitFlushes(w, SettleAbandoned(w, s).s, m);
    }
  }

  lemma {:induction false} WriteServes(w: World, s: State, m: Ideal, n: nat)
    requires Is(s, m) && s.holder.Some?
    ensures Is(JobWrite(s, n), Serve(w.cap, m, Writes(n)))
  {
  }

  lemma {:induction false} StepServes(w: World, s: State, m: Ideal, ev: Event)
    requires Obliging(w) && Is(s, m) && GroupCommitSafety.Inv(s) && !ev.EngineAborts?
    ensures Is(Step(w, s, ev), Serve(w.cap, m, ev))
  {
    if s.holder.None? {
      match ev
      case BeginsJob => BeginJobServes(w, s, m);
      case Locks(commit) => LockServes(w, s, m, commit);
      case WaiterLocks(idle) =>
        if idle {
          LockServes(w, s, m, true);
        }
      case _ =>
    } else {
      match ev
      case Writes(n) => WriteServes(w, s, m, n);
      case Finishes(others) => FinishServes(w, s, m, others);
      case Fails(others) => FailServes(w, s, m, others);
      case _ =>
    }
  }

  /** Group commit on an engine that refuses nothing is the simple batch, step for step. */
  lemma {:induction false} RunServes(w: World, events: seq<Event>)
    requires Obliging(w) && NoAborts(events)
    ensures Is(Run(w, events), Served(w.cap, events))
    decreases |events|
  {
    if events != [] {
      var front, last := events[..|events| - 1], events[|events| - 1];
      RunServes(w, front);
      GroupCommitSafety.RunKeeps(w, front);
      StepServes(w, Run(w, front), Served(w.cap, front), last);
    }
  }

  // ---------------------------------------------------------------- what every caller gets

  lemma {:induction false} RunSnoc(w: World, events: seq<Event>, ev: Event)
    ensures Run(w, events + [ev]) == Step(w, Run(w, events), ev)
  {
    assert (events + [ev])[..|events|] == events;
  }

  /** Nobody is ever told anything but that COMMIT carried the job, and it did. */
  lemma {:induction false} NobodyFails(w: World, events: seq<Event>, j: Job)
    requires Obliging(w) && NoAborts(events) && j in Run(w, events).past.answers
    ensures var s := Run(w, events);
            && s.past.answers[j] == Committed
            && forall x :: x in s.past.written && x.job == j ==> x in s.link.engine.committed
  {
    RunServes(w, events);
    GroupCommitSafety.RunKeeps(w, events);
  }

  /** A job that finds no other writer pending when it fails or finishes, or that fills the batch, and
      a user of the connection that finds none. */
  predicate EndsBatch(cap: nat, running: Option<Job>, waiting: set<Job>, ev: Event) {
    if running.Some? then
      ev == Fails(false) || ev == Finishes(false) || (ev == Finishes(true) && |waiting| + 1 >= cap)
    else ev == Locks(true) || ev == WaiterLocks(true)
  }

  function Finisher(running: Option<Job>, ev: Event): set<Job> {
    if running.Some? && ev.Finishes? then {running.value} else {}
  }

  /** That ends the batch: everyone who waited, and the job that finished, is answered `Committed` with
      all its writes durable. Nothing else ends it: the others go on waiting. */
  lemma {:induction false} BatchEndsExactly(w: World, events: seq<Event>, ev: Event)
    requires Obliging(w) && NoAborts(events) && !ev.EngineAborts?
    ensures var s, t := Run(w, events), Run(w, events + [ev]);
            var done := Waiters(s) + Finisher(s.holder, ev);
            if EndsBatch(w.cap, s.holder, Waiters(s), ev) then
              && Waiters(t) == {}
              && forall j :: j in done ==>
                   && j in t.past.answers && t.past.answers[j] == Committed
                   && forall x :: x in t.past.written && x.job == j ==> x in t.link.engine.committed
            else Waiters(t) == done && t.past.answers.Keys == s.past.answers.Keys
  {
    var s, t := Run(w, events), Run(w, events + [ev]);
    var m := Served(w.cap, events);
    assert Is(s, m) by {
      RunServes(w, events);
    }
    assert Is(t, Serve(w.cap, m, ev)) by {
      RunServes(w, events + [ev]);
      assert (events + [ev])[..|events|] == events;
    }
    assert OkIsDurable(t) by {
      GroupCommitSafety.RunKeeps(w, events + [ev]);
    }
    FlushedExactly(w.cap, m, ev);
  }

  lemma {:induction false} FlushedExactly(cap: nat, m: Ideal, ev: Event)
    requires !ev.EngineAborts?
    ensures var u, done := Serve(cap, m, ev), m.waiting + Finisher(m.running, ev);
            if EndsBatch(cap, m.running, m.waiting, ev) then u.waiting == {} && done <= u.told
            else u.waiting == done && u.told == m.told
  {
    assert m.waiting + {} == m.waiting;
  }

  // ---------------------------------------------------------------- callers that are dropped

  /** Callers may be dropped mid-statement, but every statement that was not abandoned runs. */
  ghost predicate Willing(w: World) {
    forall tick :: w.fate(tick) in {Runs, GoneUnrun, GoneRan}
  }

  /** Whatever is open has its transaction, and a job its savepoint; nobody was told a failure. */
  ghost predicate Able(s: State) {
    var e := s.link.engine;
    && (s.open.Some? && s.link.inFlight != Some(Commit) && s.link.inFlight != Some(Rollback) ==> e.inTx && !e.implicit)
    && (!e.inTx ==> e.layers == [])
    && (s.jobOpen && s.link.inFlight.None? ==> e.layers != [])
    && (s.holder.Some? ==> s.jobOpen && s.open.Some? && s.link.inFlight.None?)
    && Books(s)
    && forall j :: j in s.past.answers ==> s.past.answers[j] in {Committed, Failed(OutcomeUnknown)}
  }

  lemma {:induction false} RollbackJobAble(w: World, s: State, undoing: bool)
    requires Willing(w) && Able(s) && s.holder.None? && s.open.Some?
    requires s.link.inFlight != Some(Commit) && s.link.inFlight != Some(Rollback)
    ensures var r := RollbackJob(w, s, undoing);
            && Able(r.s.(jobOpen := if r.reply == Err then false else r.s.jobOpen)) && r.s.holder.None? && r.s.open == s.open
            && r.s.past == s.past
            && (r.reply != Gone ==> r.s.link.inFlight.None?) && (r.reply == Ok ==> !r.s.jobOpen)
            && (r.reply == Err ==> s.link.engine.layers == [])
  {
    assert w.fate(s.link.tick) in {Runs, GoneUnrun, GoneRan};
    assert w.fate(s.link.tick + 1) in {Runs, GoneUnrun, GoneRan};
  }

  lemma {:induction false} DiscardAble(w: World, s: State)
    requires Willing(w) && Able(s) && s.holder.None?
    ensures var r := DiscardBatch(w, s, OutcomeUnknown);
            Able(r.s) && r.s.holder.None? && (r.reply != Gone ==> r.s.link.inFlight.None? && r.s.open.None?)
  {
    assert w.fate(s.link.tick) in {Runs, GoneUnrun, GoneRan};
  }

  lemma {:induction false} SettleUnknownAble(w: World, s: State)
    requires Willing(w) && Able(s) && s.holder.None? && s.link.inFlight == Some(Commit) && !s.jobOpen
    ensures var r := SettleUnknownCommit(w, s);
            Able(r.s) && r.s.holder.None? && (r.reply != Gone ==> r.s.link.inFlight.None?)
  {
    assert w.fate(s.link.tick) in {Runs, GoneUnrun, GoneRan};
    assert w.fate(s.link.tick + 1) in {Runs, GoneUnrun, GoneRan};
  }

  predicate CommitAlone(s: State) {
    s.link.inFlight == Some(Commit) ==> !s.jobOpen
  }

  lemma {:induction false} UndoAble(w: World, s: State)
    requires Willing(w) && Able(s) && s.holder.None? && s.open.Some?
    requires s.link.inFlight != Some(Commit) && s.link.inFlight != Some(Rollback)
    ensures var r := UndoSavepoint(w, s);
            && Able(r.s) && r.s.holder.None? && CommitAlone(r.s) && (r.reply != Gone ==> r.s.link.inFlight.None?)
  {
    RollbackJobAble(w, s, true);
  }

  lemma {:induction false} ReconcileAble(w: World, s: State)
    requires Willing(w) && Able(s) && s.holder.None? && CommitAlone(s)
    ensures var r := Reconcile(w, s);
            Able(r.s) && r.s.holder.None? && CommitAlone(r.s) && (r.reply != Gone ==> r.s.link.inFlight.None?)
  {
    if s.link.inFlight.Some? {
      match s.link.inFlight.value
      case Begin => DiscardAble(w, s);
      case Rollback => DiscardAble(w, s);
      case Commit => SettleUnknownAble(w, s);
      case _ => UndoAble(w, s);
    }
  }

  lemma {:induction false} SettleAble(w: World, s: State)
    requires Willing(w) && Able(s) && s.holder.None? && s.link.inFlight.None?
    ensures var r := SettleAbandoned(w, s);
            && Able(r.s) && r.s.holder.None? && CommitAlone(r.s)
            && (r.reply != Gone ==> r.s.link.inFlight.None? && !r.s.jobOpen)
  {
    if s.jobOpen {
      RollbackJobAble(w, s, false);
    }
  }

  lemma {:induction false} CommitAble(w: World, s: State)
    requires Willing(w) && Able(s) && s.holder.None? && s.link.inFlight.None? && !s.jobOpen
    ensures var r := CommitBatch(w, s); Able(r.s) && r.s.holder.None? && CommitAlone(r.s) && r.reply != Err
  {
    assert w.fate(s.link.tick) in {Runs, GoneUnrun, GoneRan};
  }

  lemma {:induction false} StartJobAble(w: World, s: State)
    requires Willing(w) && Able(s) && s.holder.None? && s.link.inFlight.None? && !s.jobOpen
    ensures var b := JoinBatch(w, s);
            && Able(b.s) && CommitAlone(b.s) && b.s.holder.None? && !b.s.jobOpen
            && (b.reply == Ok ==> b.s.link.inFlight.None? && b.s.open.Some?)
    ensures JoinBatch(w, s).reply == Ok ==>
              var r := OpenSavepoint(w, JoinBatch(w, s).s);
              && Able(r.s) && CommitAlone(r.s) && r.s.holder.None?
              && (r.reply == Ok ==> r.s.jobOpen && r.s.open.Some? && r.s.link.inFlight.None?)
  {
    assert w.fate(s.link.tick) in {Runs, GoneUnrun, GoneRan};
    assert w.fate(s.link.tick + 1) in {Runs, GoneUnrun, GoneRan};
  }

  lemma {:induction false} BeginJobAble(w: World, s: State)
    requires Willing(w) && Able(s) && s.holder.None? && CommitAlone(s)
    ensures Able(BeginJob(w, s)) && CommitAlone(BeginJob(w, s))
  {
    ReconcileAble(w, s);
    var c := Reconcile(w, s);
    if c.reply == Ok {
      SettleAble(w, c.s);
      var a := SettleAbandoned(w, c.s);
      if a.reply == Ok {
        StartJobAble(w, a.s);
      }
    }
  }

  lemma {:induction false} LockAble(w: World, s: State, commit: bool)
    requires Willing(w) && Able(s) && s.holder.None? && CommitAlone(s)
    ensures Able(SettleAndCommit(w, s, commit)) && CommitAlone(SettleAndCommit(w, s, commit))
  {
    ReconcileAble(w, s);
    var c := Reconcile(w, s);
    if c.reply == Ok {
      SettleAble(w, c.s);
      var a := SettleAbandoned(w, c.s);
      if a.reply == Ok {
        CommitAble(w, a.s);
      }
    }
  }

  lemma {:induction false} EndJobAble(w: World, s: State)
    requires Willing(w) && Able(s) && s.holder.Some?
    ensures var r := EndJob(w, Unhold(s));
            && Able(r.s) && CommitAlone(r.s) && r.s.holder.None? && r.reply != Err
            && (r.reply == Ok ==> r.s.open.Some? && !r.s.jobOpen && r.s.link.inFlight.None?)
  {
    assert w.fate(s.link.tick) in {Runs, GoneUnrun, GoneRan};
  }

  lemma {:induction false} FinishAble(w: World, s: State, others: bool)
    requires Willing(w) && Able(s) && s.holder.Some?
    ensures Able(Finish(w, s, others)) && CommitAlone(Finish(w, s, others))
  {
    EndJobAble(w, s);
    var r := EndJob(w, Unhold(s));
    if r.reply == Ok {
      CommitAble(w, r.s);
    }
  }

  lemma {:induction false} FailAble(w: World, s: State, others: bool)
    requires Willing(w) && Able(s) && s.holder.Some?
    ensures Able(Fail(w, s, others)) && CommitAlone(Fail(w, s, others))
  {
    var t := s.(holder := None);
    RollbackJobAble(w, t, false);
    if RollbackJob(w, t, false).reply == Ok {
      CommitAble(w, RollbackJob(w, t, false).s);
    }
  }

  lemma {:induction false} StepAble(w: World, s: State, ev: Event)
    requires Willing(w) && Able(s) && CommitAlone(s) && !ev.EngineAborts?
    ensures Able(Step(w, s, ev)) && CommitAlone(Step(w, s, ev))
  {
    if s.holder.None? {
      match ev
      case BeginsJob => BeginJobAble(w, s);
      case Locks(commit) => LockAble(w, s, commit);
      case WaiterLocks(idle) =>
        LockAble(w, s, true);
        ReconcileAble(w, s);
      case _ =>
    } else {
      match ev
      case Finishes(others) => FinishAble(w, s, others);
      case Fails(others) => FailAble(w, s, others);
      case _ =>
    }
  }

  /** On an engine that refuses nothing, whichever callers are dropped, nobody is told a failure: only
      `Committed`, or that the outcome of a COMMIT or ROLLBACK nobody saw is unknown. */
  lemma {:induction false} NobodyDenied(w: World, events: seq<Event>)
    requires Willing(w) && NoAborts(events)
    ensures Able(Run(w, events)) && CommitAlone(Run(w, events))
    ensures forall j :: j in Run(w, events).past.answers ==> Run(w, events).past.answers[j] in {Committed, Failed(OutcomeUnknown)}
    decreases |events|
  {
    if events != [] {
      var front, last := events[..|events| - 1], events[|events| - 1];
      NobodyDenied(w, front);
      StepAble(w, Run(w, front), last);
    }
  }

  /** A COMMIT whose caller was dropped before it ran is carried by whoever takes the lock next: its
      waiters are told `Committed`, and it is. */
  lemma {:induction false} UnrunCommitIsCarried(w: World, s: State)
    requires w.fate(s.link.tick) == Runs && s.holder.None?
    requires s.link.inFlight == Some(Commit) && s.open.Some? && s.link.engine.inTx
    ensures var r := Reconcile(w, s);
            && r.reply == Ok && r.s.open.None? && r.s.link.inFlight.None?
            && r.s.link.engine == CommitOpen(s.link.engine)
            && forall j :: j in Waiters(s) ==> j in r.s.past.answers && r.s.past.answers[j] == Committed
  {
  }

  /** A savepoint statement whose caller was dropped costs the batch nothing, whatever the engine
      answers: it stays open, with everyone who waits, and nobody is told anything. */
  lemma {:induction false} DroppedSavepointKeepsBatch(w: World, s: State)
    requires s.link.inFlight in {Some(Savepoint), Some(Release), Some(RollbackTo)}
    ensures var r := Reconcile(w, s); r.s.open == s.open && r.s.past == s.past
  {
  }
}
