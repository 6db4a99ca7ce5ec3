/**
  Group commit of the engines that write through one connection.

  Every lock-held section of `group_commit.rs` and `group_commit_reconcile.rs` is one transition
  of the machine below. The `World` decides, statement by statement, what the engine does: run it,
  refuse it and change nothing, fail and end the whole transaction, or outlive a caller that was
  dropped while it waited. A run is any schedule of transitions in any world, so a theorem about
  `Run` is about every interleaving, every such fault and every cancellation.
 */
module GroupCommit {
  import opened Options

  type Job = nat

  /** One write of a job; `n` tells the writes of a job apart. */
  datatype Write = Write(job: Job, n: nat)

  // ---------------------------------------------------------------- the engine

  datatype Statement = Begin | Savepoint | Release | RollbackTo | Commit | Rollback

  /** `base` holds the open transaction's writes below every savepoint and `layers` those made
      since each savepoint, innermost last. `implicit` marks a transaction a SAVEPOINT opened. */
  datatype Engine = Engine(inTx: bool, implicit: bool, base: set<Write>, layers: seq<set<Write>>,
                           committed: set<Write>)

  function Union(layers: seq<set<Write>>): set<Write> {
    if layers == [] then {} else Union(layers[..|layers| - 1]) + layers[|layers| - 1]
  }

  function CommitOpen(e: Engine): Engine {
    Engine(false, false, {}, [], e.committed + e.base + Union(e.layers))
  }

  function RollbackOpen(e: Engine): Engine {
    Engine(false, false, {}, [], e.committed)
  }

  /** The savepoint below the innermost one takes its writes; the outermost hands them to `base`. */
  function PopLayer(e: Engine): Engine
    requires e.layers != []
  {
    var n := |e.layers|;
    if n == 1 then e.(base := e.base + e.layers[0], layers := [])
    else e.(layers := e.layers[..n - 2] + [e.layers[n - 2] + e.layers[n - 1]])
  }

  /** What a statement does when nothing goes wrong; `false` is the engine's refusal. */
  function Perform(e: Engine, st: Statement): (Engine, bool) {
    match st
    case Begin => if e.inTx then (e, false) else (Engine(true, false, {}, [], e.committed), true)
    case Savepoint =>
      if e.inTx then (e.(layers := e.layers + [{}]), true)
      else (Engine(true, true, {}, [{}], e.committed), true)
    case Release =>
      if e.layers == [] then (e, false)
      else if Closes(e, Release) then (CommitOpen(e), true)
      else (PopLayer(e), true)
    case RollbackTo =>
      if e.layers == [] then (e, false) else (e.(layers := e.layers[|e.layers| - 1 := {}]), true)
    case Commit => if e.inTx then (CommitOpen(e), true) else (e, false)
    case Rollback => if e.inTx then (RollbackOpen(e), true) else (e, false)
  }

  /** The statement would end the transaction by committing it. */
  predicate Closes(e: Engine, st: Statement) {
    || (st == Commit && e.inTx)
    || (st == Release && e.implicit && |e.layers| == 1)
  }

  /** What happens to one statement: `Refused` answers an error and changes nothing, `Aborts` answers
      one and ends the transaction. The `Gone` fates drop the caller while it awaits. */
  datatype Fate = Runs | Aborts | Refused | GoneUnrun | GoneRan | GoneAborted

  /** What the engine is capable of: ending a transaction on its own; refusing, while the savepoint
      lives, a statement sent to undo it after a dropped caller; refusing a ROLLBACK. Any other
      statement may be refused in any world. */
  datatype Faults = Faults(aborts: bool, refusesUndo: bool, refusesRollback: bool)

  datatype World = World(fate: nat -> Fate, faults: Faults, cap: nat)

  /** The fate of the `tick`-th statement, as far as the engine is capable of it. */
  function FateOf(w: World, tick: nat, st: Statement, undoing: bool): Fate {
    match w.fate(tick)
    case Aborts => if w.faults.aborts then Aborts else Runs
    case GoneAborted => if w.faults.aborts then GoneAborted else GoneRan
    case Refused =>
      if (undoing && !w.faults.refusesUndo) || (st == Rollback && !w.faults.refusesRollback) then Runs else Refused
    case fate => fate
  }

  // ---------------------------------------------------------------- the batch

  datatype Why = CommitFailed | ReleaseFailed | TransactionLost | OutcomeUnknown

  datatype Answer = Committed | Failed(why: Why)

  datatype Batch = Batch(jobs: nat, waiters: set<Job>)

  /** The connection with the mark of the control statement being awaited; `tick` counts the
      statements sent so far. */
  datatype Link = Link(engine: Engine, inFlight: Option<Statement>, tick: nat)

  /** What each caller was told, every write a job made, those made outside any transaction, the
      jobs whose `finish` was called, and whether a job was ever started in a batch whose
      transaction the engine had already ended. */
  datatype History = History(answers: map<Job, Answer>, written: set<Write>, stray: set<Write>,
                             finished: set<Job>, orphaned: bool)

  /** `holder` owns the lock between `begin_job` and the end of its job. */
  datatype State = State(link: Link, open: Option<Batch>, jobOpen: bool, holder: Option<Job>,
                         next: Job, past: History)

  datatype Reply = Ok | Err | Gone

  /** A section's end: the state it leaves, and its answer or that its future was dropped. */
  datatype R = R(s: State, reply: Reply)

  const Initial: State :=
    State(Link(Engine(false, false, {}, [], {}), None, 0), None, false, None, 0,
          History(map[], {}, {}, {}, false))

  function Waiters(s: State): set<Job> {
    if s.open.Some? then s.open.value.waiters else {}
  }

  /** `answer_waiters`, and the batch leaves the state. */
  function Answered(s: State, a: Answer): State {
    s.(open := None, past := s.past.(answers := s.past.answers + map j | j in Waiters(s) :: a))
  }

  function Tell(s: State, j: Job, a: Answer): State {
    s.(past := s.past.(answers := s.past.answers[j := a]))
  }

  /** `run_control`: the mark stays set exactly when the awaiting future is dropped. `undoing`: the
      statement undoes a savepoint on behalf of a dropped caller. */
  function Control(w: World, l: Link, st: Statement, undoing: bool): (Link, Reply) {
    var ran := Perform(l.engine, st);
    match FateOf(w, l.tick, st, undoing)
    case Runs => (Link(ran.0, None, l.tick + 1), if ran.1 then Ok else Err)
    case Aborts => (Link(RollbackOpen(l.engine), None, l.tick + 1), Err)
    case Refused => (Link(l.engine, None, l.tick + 1), Err)
    case GoneUnrun => (Link(l.engine, Some(st), l.tick + 1), Gone)
    case GoneRan => (Link(ran.0, Some(st), l.tick + 1), Gone)
    case GoneAborted => (Link(RollbackOpen(l.engine), Some(st), l.tick + 1), Gone)
  }

  function SendAs(w: World, s: State, st: Statement, undoing: bool): (r: R)
    ensures r.s.past.orphaned == s.past.orphaned
  {
    var c := Control(w, s.link, st, undoing);
    R(s.(link := c.0), c.1)
  }

  function Send(w: World, s: State, st: Statement): (r: R)
    ensures r.s.past.orphaned == s.past.orphaned
  {
    SendAs(w, s, st, false)
  }

  function RollbackJob(w: World, s: State, undoing: bool): (r: R)
    ensures r.s.past.orphaned == s.past.orphaned
  {
    var r := SendAs(w, s, RollbackTo, undoing);
    if r.reply != Ok then r else
    var q := SendAs(w, r.s, Release, undoing);
    if q.reply != Ok then q else R(q.s.(jobOpen := false), Ok)
  }

  function DiscardBatch(w: World, s: State, why: Why): (r: R)
    ensures r.s.past.orphaned == s.past.orphaned
  {
    var r := Send(w, s, Rollback);
    if r.reply == Gone then r else R(Answered(r.s, Failed(why)).(jobOpen := false), Ok)
  }

  /** `Err`: the savepoint was lost and the batch was discarded. */
  function RollbackJobOrDiscard(w: World, s: State): (r: R)
    ensures r.s.past.orphaned == s.past.orphaned
  {
    var r := RollbackJob(w, s, false);
    if r.reply != Err then r else
    var d := DiscardBatch(w, r.s, TransactionLost);
    if d.reply == Gone then d else R(d.s, Err)
  }

  function SettleAbandoned(w: World, s: State): (r: R)
    ensures r.s.past.orphaned == s.past.orphaned
  {
    if !s.jobOpen then R(s, Ok) else
    var r := RollbackJobOrDiscard(w, s);
    if r.reply == Gone then r else R(r.s, Ok)
  }

  function UndoSavepoint(w: World, s: State): (r: R)
    ensures r.s.past.orphaned == s.past.orphaned
  {
    var r := RollbackJob(w, s, true);
    if r.reply == Gone then r else R(r.s.(jobOpen := false), Ok)
  }

  function SettleUnknownCommit(w: World, s: State): (r: R)
    ensures r.s.past.orphaned == s.past.orphaned
  {
    if s.open.None? then R(s.(link := s.link.(inFlight := None)), Ok) else
    var r := Send(w, s, Commit);
    if r.reply == Gone then r
    else if r.reply == Ok then R(Answered(r.s, Committed), Ok)
    else DiscardBatch(w, r.s, OutcomeUnknown)
  }

  function Reconcile(w: World, s: State): (r: R)
    ensures r.s.past.orphaned == s.past.orphaned
  {
    if s.link.inFlight.None? then R(s, Ok) else
    match s.link.inFlight.value
    case Begin => DiscardBatch(w, s, OutcomeUnknown)
    case Rollback => DiscardBatch(w, s, OutcomeUnknown)
    case Commit => SettleUnknownCommit(w, s)
    case Savepoint => UndoSavepoint(w, s)
    case Release => UndoSavepoint(w, s)
    case RollbackTo => UndoSavepoint(w, s)
  }

  function CommitBatch(w: World, s: State): (r: R)
    ensures r.s.past.orphaned == s.past.orphaned
  {
    if s.open.None? then R(s, Ok) else
    var r := Send(w, s, Commit);
    if r.reply == Gone then r
    else if r.reply == Ok then R(Answered(r.s, Committed), Ok)
    else
      var q := Send(w, r.s, Rollback);
      if q.reply == Gone then q else R(Answered(q.s, Failed(CommitFailed)), Err)
  }

  /** The batch is there, or `begin_batch` opens it. */
  function JoinBatch(w: World, s: State): (r: R)
    ensures r.s.past.orphaned == s.past.orphaned
  {
    if s.open.Some? then R(s, Ok) else
    var r := Send(w, s, Begin);
    if r.reply != Ok then r else R(r.s.(open := Some(Batch(0, {}))), Ok)
  }

  function NoteOrphan(s: State): State {
    s.(past := s.past.(orphaned := s.past.orphaned || !s.link.engine.inTx))
  }

  function OpenSavepoint(w: World, s: State): (r: R)
    ensures s.past.orphaned ==> r.s.past.orphaned
  {
    var r := Send(w, NoteOrphan(s), Savepoint);
    if r.reply != Ok then r else R(r.s.(jobOpen := true), Ok)
  }

  function StartJob(w: World, s: State): (r: R)
    ensures s.past.orphaned ==> r.s.past.orphaned
  {
    var a := SettleAbandoned(w, s);
    if a.reply != Ok then a else
    var b := JoinBatch(w, a.s);
    if b.reply != Ok then b else OpenSavepoint(w, b.s)
  }

  /** `begin_job`, once the lock is granted. */
  function BeginJob(w: World, s: State): (t: State)
    ensures s.past.orphaned ==> t.past.orphaned
  {
    var c := Reconcile(w, s);
    if c.reply != Ok then c.s else
    var r := StartJob(w, c.s);
    if r.reply != Ok then r.s else r.s.(holder := Some(r.s.next), next := r.s.next + 1)
  }

  function EndJob(w: World, s: State): (r: R)
    ensures r.s.past.orphaned == s.past.orphaned
  {
    var r := Send(w, s, Release);
    if r.reply == Gone then r
    else if r.reply == Err then
      var q := RollbackJobOrDiscard(w, r.s);
      if q.reply == Gone then q else R(q.s, Err)
    else
      var b := if s.open.Some? then s.open.value else Batch(0, {});
      R(r.s.(jobOpen := false, open := Some(b.(jobs := b.jobs + 1))), Ok)
  }

  /** `finish` has taken the guard apart: the lock goes with this section. */
  function Unhold(s: State): State
    requires s.holder.Some?
  {
    s.(holder := None, past := s.past.(finished := s.past.finished + {s.holder.value}))
  }

  function Enlist(s: State, j: Job): State
    requires s.open.Some?
  {
    s.(open := Some(s.open.value.(waiters := s.open.value.waiters + {j})))
  }

  /** `finish` of the holder's job, up to its answer or its place among the waiters. */
  function Finish(w: World, s: State, others: bool): (t: State)
    requires s.holder.Some?
    ensures s.past.orphaned ==> t.past.orphaned
  {
    var j := s.holder.value;
    var r := EndJob(w, Unhold(s));
    if r.reply == Gone then r.s
    else if r.reply == Err then Tell(r.s, j, Failed(ReleaseFailed))
    else if !others || r.s.open.value.jobs >= w.cap then
      var c := CommitBatch(w, r.s);
      if c.reply == Gone then c.s
      else Tell(c.s, j, if c.reply == Ok then Committed else Failed(CommitFailed))
    else Enlist(r.s, j)
  }

  function Fail(w: World, s: State, others: bool): (t: State)
    ensures s.past.orphaned ==> t.past.orphaned
  {
    var r := RollbackJobOrDiscard(w, s.(holder := None));
    if r.reply != Ok || others then r.s else CommitBatch(w, r.s).s
  }

  /** `lock`, `lock_autocommit` and `commit_if_drained`: reconcile, then settle and commit. */
  function SettleAndCommit(w: World, s: State, commit: bool): (t: State)
    ensures s.past.orphaned ==> t.past.orphaned
  {
    var c := Reconcile(w, s);
    if c.reply != Ok then c.s else
    var a := SettleAbandoned(w, c.s);
    if a.reply != Ok || !commit then a.s else CommitBatch(w, a.s).s
  }

  /** A write goes to the innermost savepoint; with no transaction open it is durable at once. */
  function EngineWrite(e: Engine, x: Write): Engine {
    if !e.inTx then e.(committed := e.committed + {x})
    else if e.layers == [] then e.(base := e.base + {x})
    else e.(layers := e.layers[|e.layers| - 1 := e.layers[|e.layers| - 1] + {x}])
  }

  function JobWrite(s: State, n: nat): State
    requires s.holder.Some?
  {
    var x := Write(s.holder.value, n);
    s.(link := s.link.(engine := EngineWrite(s.link.engine, x)),
       past := s.past.(written := s.past.written + {x},
                       stray := if s.link.engine.inTx then s.past.stray else s.past.stray + {x}))
  }

  // ---------------------------------------------------------------- runs

  /** `others` and `commit` are what the pending count said, which the schedule decides. */
  datatype Event =
    | BeginsJob
    | Writes(n: nat)
    | EngineAborts
    | Finishes(others: bool)
    | Fails(others: bool)
    | DropsJob
    | Locks(commit: bool)
    | WaiterLocks(idle: bool)

  /** The engine ends the transaction under a job's or a reader's own statement. */
  function Abort(w: World, s: State): State {
    if w.faults.aborts then s.(link := s.link.(engine := RollbackOpen(s.link.engine))) else s
  }

  /** An event that is not possible in `s` changes nothing. */
  function Step(w: World, s: State, ev: Event): (t: State)
    ensures s.past.orphaned ==> t.past.orphaned
  {
    if ev.EngineAborts? then Abort(w, s)
    else if s.holder.None? then
      match ev
      case BeginsJob => BeginJob(w, s)
      case Locks(commit) => SettleAndCommit(w, s, commit)
      case WaiterLocks(idle) => if idle then SettleAndCommit(w, s, true) else Reconcile(w, s).s
      case _ => s
    else
      match ev
      case Writes(n) => JobWrite(s, n)
      case Finishes(others) => Finish(w, s, others)
      case Fails(others) => Fail(w, s, others)
      case DropsJob => s.(holder := None)
      case _ => s
  }

  function Run(w: World, events: seq<Event>): State {
    if events == [] then Initial
    else Step(w, Run(w, events[..|events| - 1]), events[|events| - 1])
  }
}
