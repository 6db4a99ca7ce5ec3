/**
  Waiting for a shared COMMIT (`group_commit.rs`): writers take a place in the queue, run their job
  under the lock and leave the batch open while others are queued; a job left in the batch waits for
  whoever commits it, and commits it itself once the queue has drained.

  The machine interleaves the steps of any number of threads. Committing, rolling back or discarding
  the batch are one thing here, `Settled`: every job waiting on it is answered.
 */
module CommitWait {
  import opened Options

  type Id = nat

  /** A writer: `Queued`, `Running` its job, `Leaving` with its place and the lock still held (and,
      if it `waits`, its job in the batch), `Dropping` only the place, `Unlocking` only the lock.
      A waiting job: `Registering` for the drain signal, `Checking` the queue, `Locking`, `Holding`
      the lock, `Arming` and `Sleeping`. */
  datatype Pc =
    | Queued | Running | Leaving(waits: bool) | Dropping | Unlocking(waits: bool)
    | Registering | Checking | Locking | Holding | Arming | Sleeping
    | Done

  /** `armed`: a signal would reach it. `woken`: one did. */
  datatype Thread = Thread(pc: Pc, armed: bool, woken: bool)

  /** `slots`: the places taken in the queue. `batch`: the jobs waiting on the open batch. `owed`:
      threads that emptied the queue and have not signalled yet. `gone`: jobs whose caller was dropped
      while it waited. */
  datatype State = State(threads: map<Id, Thread>, slots: set<Id>, lock: Option<Id>, batch: set<Id>,
                         answered: set<Id>, owed: nat, gone: set<Id>)

  /** The code signals a drained queue, and registers for the signal before it checks the queue. */
  datatype Design = Design(signals: bool, early: bool)

  const Shipped := Design(true, true)

  datatype Event =
    | Enters(i: Id) | Acquires(i: Id)
    | Finishes(i: Id, full: bool) | Fails(i: Id) | Discards(i: Id) | StopsInside(i: Id) | Abandons(i: Id)
    | DropsPlace(i: Id) | Unlocks(i: Id)
    | Registers(i: Id) | Checks(i: Id) | Takes(i: Id) | Rechecks(i: Id) | Arms(i: Id)
    | Hears(i: Id) | Wakes(i: Id) | GoesAway(i: Id)
    | Reads(autocommit: bool) | Signals

  const Initial: State := State(map[], {}, None, {}, {}, 0, {})

  // ---------------------------------------------------------------- steps

  function At(s: State, i: Id): Pc {
    if i in s.threads then s.threads[i].pc else Done
  }

  predicate HasPlace(pc: Pc) {
    pc.Queued? || pc.Running? || pc.Leaving? || pc.Dropping?
  }

  predicate HasLock(pc: Pc) {
    pc.Running? || pc.Leaving? || pc.Unlocking? || pc.Holding?
  }

  predicate Waiting(pc: Pc) {
    || ((pc.Leaving? || pc.Unlocking?) && pc.waits)
    || pc.Registering? || pc.Checking? || pc.Locking? || pc.Holding? || pc.Arming? || pc.Sleeping?
  }

  predicate Enabled(s: State, ev: Event) {
    match ev
    case Enters(i) => i !in s.threads
    case Acquires(i) => At(s, i).Queued? && s.lock.None?
    case Finishes(i, _) => At(s, i).Running?
    case Fails(i) => At(s, i).Running?
    case Discards(i) => At(s, i).Running? || At(s, i).Holding?
    case StopsInside(i) => At(s, i).Running?
    case Abandons(i) => At(s, i).Running?
    case DropsPlace(i) => At(s, i).Queued? || At(s, i).Dropping? || At(s, i).Leaving?
    case Unlocks(i) => At(s, i).Unlocking?
    case Registers(i) => At(s, i).Registering?
    case Checks(i) => At(s, i).Checking?
    case Takes(i) => At(s, i).Locking? && s.lock.None?
    case Rechecks(i) => At(s, i).Holding?
    case Arms(i) => At(s, i).Arming?
    case Hears(i) => At(s, i).Sleeping? && i in s.answered
    case Wakes(i) => At(s, i).Sleeping? && s.threads[i].woken
    case GoesAway(i) => Waiting(At(s, i)) && !At(s, i).Leaving? && !At(s, i).Unlocking?
    case Reads(_) => s.lock.None?
    case Signals => s.owed > 0
  }

  function Put(s: State, i: Id, t: Thread): State {
    s.(threads := s.threads[i := t])
  }

  function Goes(s: State, i: Id, pc: Pc): State
    requires i in s.threads
  {
    Put(s, i, s.threads[i].(pc := pc))
  }

  /** The batch is over: every job waiting on it is told. */
  function Settled(s: State): State {
    s.(batch := {}, answered := s.answered + s.batch)
  }

  function Signalled(threads: map<Id, Thread>): map<Id, Thread> {
    map i | i in threads :: if threads[i].armed then threads[i].(woken := true) else threads[i]
  }

  function FallAsleep(d: Design, s: State, i: Id): State
    requires i in s.threads
  {
    if d.early then Goes(s, i, Sleeping) else Goes(s, i, Arming)
  }

  function DropPlace(d: Design, s: State, i: Id): State {
    s.(slots := s.slots - {i}, owed := s.owed + if s.slots == {i} && d.signals then 1 else 0)
  }

  function Step(d: Design, s: State, ev: Event): State
    requires Enabled(s, ev)
  {
    match ev
    case Enters(i) => Put(s.(slots := s.slots + {i}), i, Thread(Queued, false, false))
    case Acquires(i) => Goes(s.(lock := Some(i)), i, Running)
    case Finishes(i, full) =>
      if s.slots == {i} || full then Goes(Settled(s), i, Leaving(false))
      else Goes(s.(batch := s.batch + {i}), i, Leaving(true))
    case Fails(i) => Goes(if s.slots == {i} then Settled(s) else s, i, Leaving(false))
    case Discards(_) => Settled(s)
    case StopsInside(i) => Goes(s, i, Leaving(false))
    case Abandons(i) => Goes(s.(lock := None), i, Dropping)
    case DropsPlace(i) =>
      Goes(DropPlace(d, s, i), i, if At(s, i).Leaving? then Unlocking(At(s, i).waits) else Done)
    case Unlocks(i) => Goes(s.(lock := None), i, if At(s, i).waits then Registering else Done)
    case Registers(i) => Put(s, i, Thread(Checking, d.early, false))
    case Checks(i) => if s.slots == {} then Goes(s, i, Locking) else FallAsleep(d, s, i)
    case Takes(i) => Goes(s.(lock := Some(i)), i, Holding)
    case Rechecks(i) =>
      var u := (if s.slots == {} then Settled(s) else s).(lock := None);
      if i in u.answered then Goes(u, i, Done) else FallAsleep(d, u, i)
    case Arms(i) => Put(s, i, Thread(Sleeping, true, false))
    case Hears(i) => Goes(s, i, Done)
    case Wakes(i) => Goes(s, i, Registering)
    case GoesAway(i) => Goes(s.(lock := if At(s, i).Holding? then None else s.lock, gone := s.gone + {i}), i, Done)
    case Reads(autocommit) => if s.slots == {} || autocommit then Settled(s) else s
    case Signals => s.(owed := s.owed - 1, threads := Signalled(s.threads))
  }

  function Next(d: Design, s: State, ev: Event): State {
    if Enabled(s, ev) then Step(d, s, ev) else s
  }

  /** Any schedule; an event that cannot happen then is skipped. */
  function Run(d: Design, events: seq<Event>): State {
    if events == [] then Initial else Next(d, Run(d, events[..|events| - 1]), events[|events| - 1])
  }

  // ---------------------------------------------------------------- safety

  /** Asleep, not signalled, not answered, no writer queued and no signal to come. */
  ghost predicate Stranded(s: State, i: Id) {
    At(s, i).Sleeping? && !s.threads[i].woken && i !in s.answered && s.slots == {} && s.owed == 0
  }

  ghost predicate ThreadOk(s: State, i: Id) {
    var pc := At(s, i);
    && (HasPlace(pc) <==> i in s.slots)
    && (HasLock(pc) <==> s.lock == Some(i))
    && (Waiting(pc) ==> i in s.batch || i in s.answered)
    && (pc.Checking? || pc.Locking? || pc.Holding? || pc.Sleeping? ==> s.threads[i].armed)
    && !pc.Arming? && Kept(s, i)
  }

  /** A job whose caller was dropped is in the batch or answered, and the batch holds no others that
      do not wait. */
  ghost predicate Kept(s: State, i: Id) {
    var pc := At(s, i);
    && (i in s.batch ==> i !in s.answered && (Waiting(pc) || i in s.gone))
    && (i in s.gone ==> pc.Done? && (i in s.batch || i in s.answered))
    && (pc.Queued? || pc.Running? ==> i !in s.batch && i !in s.answered)
    && (i in s.batch || i in s.answered || i in s.gone ==> i in s.threads)
  }

  ghost predicate Inv(s: State) {
    forall i :: ThreadOk(s, i) && !Stranded(s, i)
  }

  lemma {:induction false} SharedStepKeepsThread(s: State, ev: Event, i: Id)
    requires ThreadOk(s, i) && Enabled(s, ev) && (ev.Reads? || ev.Signals?)
    ensures ThreadOk(Step(Shipped, s, ev), i)
  {
  }

  lemma {:induction false} OthersKeepThread(s: State, ev: Event, i: Id)
    requires ThreadOk(s, i) && Enabled(s, ev) && !ev.Reads? && !ev.Signals? && ev.i != i && ThreadOk(s, ev.i)
    ensures ThreadOk(Step(Shipped, s, ev), i)
  {
  }

  lemma {:induction false} OwnStepKeepsThread(s: State, ev: Event)
    requires !ev.Reads? && !ev.Signals? && ThreadOk(s, ev.i) && Enabled(s, ev)
    ensures ThreadOk(Step(Shipped, s, ev), ev.i)
  {
  }

  lemma {:induction false} StepStrandsNobody(s: State, ev: Event, i: Id)
    requires ThreadOk(s, i) && !Stranded(s, i) && Enabled(s, ev) && (!ev.Reads? && !ev.Signals? ==> ThreadOk(s, ev.i))
    ensures !Stranded(Step(Shipped, s, ev), i)
  {
  }

  lemma {:induction false} StepKeeps(s: State, ev: Event)
    requires Inv(s) && Enabled(s, ev)
    ensures Inv(Step(Shipped, s, ev))
  {
    forall i
      ensures ThreadOk(Step(Shipped, s, ev), i) && !Stranded(Step(Shipped, s, ev), i)
    {
      assert ThreadOk(s, i) && !Stranded(s, i);
      assert !ev.Reads? && !ev.Signals? ==> ThreadOk(s, ev.i);
      if ev.Reads? || ev.Signals? {
        SharedStepKeepsThread(s, ev, i);
      } else if ev.i == i {
        OwnStepKeepsThread(s, ev);
      } else {
        OthersKeepThread(s, ev, i);
      }
      StepStrandsNobody(s, ev, i);
    }
  }

  /** In every interleaving, a job that sleeps un-signalled has been answered, or a writer is still
      queued, or a signal is on its way: none is ever stranded. */
  lemma {:induction false} RunKeeps(events: seq<Event>)
    ensures Inv(Run(Shipped, events))
    decreases |events|
  {
    if events != [] {
      var front, last := events[..|events| - 1], events[|events| - 1];
      RunKeeps(front);
      if Enabled(Run(Shipped, front), last) {
        StepKeeps(Run(Shipped, front), last);
      }
    }
  }

  // ---------------------------------------------------------------- progress

  /** More than the steps a thread can take before the next place is dropped or signal sent. */
  function Work(t: Thread): nat {
    match t.pc
    case Queued => 10
    case Running => 9
    case Leaving(_) => 8
    case Unlocking(_) => 7
    case Registering => 6
    case Checking => if t.woken then 15 else 5
    case Locking => if t.woken then 14 else 4
    case Holding => if t.woken then 13 else 3
    case Arming => 2
    case Sleeping => if t.woken then 11 else 1
    case Dropping => 1
    case Done => 0
  }

  ghost function Total(threads: map<Id, Thread>): nat {
    if threads == map[] then 0
    else
      var i :| i in threads;
      Work(threads[i]) + Total(threads - {i})
  }

  lemma {:induction false} TotalWithout(threads: map<Id, Thread>, i: Id)
    requires i in threads
    ensures Total(threads) == Work(threads[i]) + Total(threads - {i})
    decreases |threads|
  {
    var j :| j in threads && Total(threads) == Work(threads[j]) + Total(threads - {j});
    if j != i {
      TotalWithout(threads - {j}, i);
      TotalWithout(threads - {i}, j);
      assert threads - {j} - {i} == threads - {i} - {j};
    }
  }

  lemma {:induction false} TotalPut(threads: map<Id, Thread>, i: Id, t: Thread)
    requires i in threads
    ensures Total(threads[i := t]) == Total(threads) - Work(threads[i]) + Work(t)
  {
    TotalWithout(threads, i);
    TotalWithout(threads[i := t], i);
    assert threads[i := t] - {i} == threads - {i};
  }

  /** Places to drop and signals to send. */
  function Ahead(s: State): nat {
    2 * |s.slots| + s.owed
  }

  ghost predicate Nearer(u: State, s: State) {
    Ahead(u) < Ahead(s) || (Ahead(u) == Ahead(s) && Total(u.threads) < Total(s.threads))
  }

  lemma {:induction false} DroppedPlaceIsAhead(s: State, i: Id)
    requires Enabled(s, DropsPlace(i)) && ThreadOk(s, i)
    ensures Ahead(Step(Shipped, s, DropsPlace(i))) < Ahead(s)
  {
    assert |s.slots - {i}| == |s.slots| - 1;
  }

  lemma {:induction false} OwnStepIsWork(s: State, ev: Event)
    requires Enabled(s, ev) && !ev.Enters? && !ev.Signals? && !ev.Reads? && !ev.Discards? && !ev.DropsPlace?
    ensures var u := Step(Shipped, s, ev);
            && ev.i in s.threads && ev.i in u.threads && u.threads == s.threads[ev.i := u.threads[ev.i]]
            && Ahead(u) == Ahead(s) && Work(u.threads[ev.i]) < Work(s.threads[ev.i])
  {
  }

  /** Unless a new writer enters, no step takes the threads back, and only a reader's or a discard
      takes them no further: so every schedule comes to rest. */
  lemma {:induction false} StepsBringNearer(s: State, ev: Event)
    requires Inv(s) && Enabled(s, ev) && !ev.Enters?
    ensures var u := Step(Shipped, s, ev);
            Nearer(u, s) || ((ev.Reads? || ev.Discards?) && u.threads == s.threads && Ahead(u) == Ahead(s))
  {
    if ev.DropsPlace? {
      assert ThreadOk(s, ev.i);
      DroppedPlaceIsAhead(s, ev.i);
    } else if !ev.Signals? && !ev.Reads? && !ev.Discards? {
      OwnStepIsWork(s, ev);
      TotalPut(s.threads, ev.i, Step(Shipped, s, ev).threads[ev.i]);
    }
  }

  /** The steps that threads take on their own, none of them giving up. */
  predicate Onward(s: State, ev: Event) {
    && Enabled(s, ev)
    && (ev.Acquires? || ev.Finishes? || ev.Unlocks? || ev.Registers? || ev.Checks? || ev.Takes? || ev.Rechecks?
        || ev.Hears? || ev.Wakes? || ev.Signals? || (ev.DropsPlace? && !At(s, ev.i).Queued?))
  }

  /** While a job waits, some thread can move on. */
  lemma {:induction false} SomeThreadMoves(s: State, i: Id) returns (ev: Event)
    requires Inv(s) && Waiting(At(s, i)) && i !in s.answered
    ensures Onward(s, ev)
  {
    assert ThreadOk(s, i) && !Stranded(s, i);
    if s.lock.Some? {
      var j := s.lock.value;
      assert ThreadOk(s, j);
      match At(s, j)
      case Running => ev := Finishes(j, false);
      case Leaving(_) => ev := DropsPlace(j);
      case Unlocking(_) => ev := Unlocks(j);
      case Holding => ev := Rechecks(j);
    } else {
      match At(s, i)
      case Registering => ev := Registers(i);
      case Checking => ev := Checks(i);
      case Locking => ev := Takes(i);
      case Sleeping =>
        if s.threads[i].woken {
          ev := Wakes(i);
        } else if s.owed > 0 {
          ev := Signals;
        } else {
          var j :| j in s.slots;
          assert ThreadOk(s, j);
          ev := if At(s, j).Queued? then Acquires(j) else DropsPlace(j);
        }
    }
  }

  lemma {:induction false} WaitsOrAnswered(s: State, ev: Event, i: Id)
    requires Inv(s) && Onward(s, ev) && (Waiting(At(s, i)) || i in s.answered)
    ensures var u := Step(Shipped, s, ev); Waiting(At(u, i)) || i in u.answered
  {
    assert ThreadOk(s, i);
  }

  lemma {:induction false} StepTowards(s: State, i: Id) returns (ev: Event)
    requires Inv(s) && Waiting(At(s, i)) && i !in s.answered
    ensures !ev.Enters? && !ev.Reads?
    ensures var u := Next(Shipped, s, ev); Nearer(u, s) && (Waiting(At(u, i)) || i in u.answered)
  {
    ev := SomeThreadMoves(s, i);
    StepsBringNearer(s, ev);
    WaitsOrAnswered(s, ev, i);
  }

  /** Steps to come, none of them a newcomer's. */
  datatype Schedule = Stop | Go(ev: Event, rest: Schedule)

  function After(s: State, more: Schedule): State
    decreases more
  {
    match more
    case Stop => s
    case Go(ev, rest) => After(Next(Shipped, s, ev), rest)
  }

  predicate NoNewcomers(more: Schedule) {
    more.Stop? || (!more.ev.Enters? && !more.ev.Reads? && NoNewcomers(more.rest))
  }

  lemma {:induction false} AnsweredFrom(s: State, i: Id) returns (more: Schedule)
    requires Inv(s) && (Waiting(At(s, i)) || i in s.answered)
    ensures i in After(s, more).answered && NoNewcomers(more)
    decreases Ahead(s), Total(s.threads)
  {
    more := Stop;
    if i !in s.answered {
      var ev := StepTowards(s, i);
      NextKeeps(s, ev);
      var rest := AnsweredFrom(Next(Shipped, s, ev), i);
      more := Go(ev, rest);
    }
  }

  lemma {:induction false} NextKeeps(s: State, ev: Event)
    requires Inv(s)
    ensures Inv(Next(Shipped, s, ev))
  {
    if Enabled(s, ev) {
      StepKeeps(s, ev);
    }
  }

  /** From any reachable state, with no newcomer, moving threads that can move answers a waiting job
      in the end. */
  lemma {:induction false} WaitingIsAnswered(events: seq<Event>, i: Id) returns (more: Schedule)
    requires Waiting(At(Run(Shipped, events), i))
    ensures i in After(Run(Shipped, events), more).answered && NoNewcomers(more)
  {
    RunKeeps(events);
    more := AnsweredFrom(Run(Shipped, events), i);
  }

  // ---------------------------------------------------------------- what is left for the next user

  /** Nobody is left: every thread is done and no signal is owed. */
  ghost predicate Resting(s: State) {
    s.owed == 0 && forall i :: At(s, i).Done?
  }

  /** When all is at rest, what is left in the open batch is exactly the jobs whose callers were
      dropped while they waited and whose batch nobody ended since. */
  lemma {:induction false} LeftOpenExactly(events: seq<Event>, i: Id)
    requires Resting(Run(Shipped, events))
    ensures var s := Run(Shipped, events); i in s.batch <==> i in s.gone && i !in s.answered
  {
    RunKeeps(events);
    assert ThreadOk(Run(Shipped, events), i) && At(Run(Shipped, events), i).Done?;
  }

  lemma {:induction false} NobodyThere(s: State)
    requires Inv(s) && Resting(s)
    ensures s.slots == {} && s.lock.None?
  {
    forall j
      ensures j !in s.slots
    {
      assert ThreadOk(s, j);
    }
    var holder := if s.lock.Some? then s.lock.value else 0;
    assert ThreadOk(s, holder) && At(s, holder).Done?;
  }

  /** The next user ends that batch: a reader at once, a writer when it finishes or fails. */
  lemma {:induction false} NextUserEndsIt(events: seq<Event>, i: Id, full: bool, autocommit: bool)
    requires Resting(Run(Shipped, events)) && i !in Run(Shipped, events).threads
    ensures var s := Run(Shipped, events);
            var running := Next(Shipped, Next(Shipped, s, Enters(i)), Acquires(i));
            var finished, failed := Next(Shipped, running, Finishes(i, full)), Next(Shipped, running, Fails(i));
            && Next(Shipped, s, Reads(autocommit)) == Settled(s)
            && finished.batch == {} && s.batch <= finished.answered
            && failed.batch == {} && s.batch <= failed.answered
  {
    RunKeeps(events);
    var s := Run(Shipped, events);
    NobodyThere(s);
    assert s.slots + {i} == {i};
  }

  /** The job that finds no other writer queued, or fills the batch, ends it for everyone in it; any
      other leaves them waiting and waits with them. */
  lemma {:induction false} FinishEndsExactly(d: Design, s: State, i: Id, full: bool)
    requires At(s, i).Running?
    ensures var t := Step(d, s, Finishes(i, full));
            if full || s.slots == {i} then t.batch == {} && t.answered == s.answered + s.batch && !Waiting(At(t, i))
            else t.batch == s.batch + {i} && t.answered == s.answered && Waiting(At(t, i))
  {
  }

  // ---------------------------------------------------------------- both halves are needed

  lemma {:induction false} RunSnoc(d: Design, events: seq<Event>, ev: Event)
    ensures Run(d, events + [ev]) == Next(d, Run(d, events), ev)
  {
    assert (events + [ev])[..|events|] == events;
  }

  /** Job 0 is left in the batch for writer 1 and checks the queue. */
  function LeftForAnother(): seq<Event> {
    [] + [Enters(0)] + [Enters(1)] + [Acquires(0)] + [Finishes(0, false)] + [DropsPlace(0)] + [Unlocks(0)]
    + [Registers(0)] + [Checks(0)]
  }

  lemma {:induction false} LeftForAnotherEnds(d: Design)
    ensures Run(d, LeftForAnother())
            == State(map[0 := Thread(if d.early then Sleeping else Arming, d.early, false), 1 := Thread(Queued, false, false)],
                     {1}, None, {0}, {}, 0, {})
  {
    var p0: seq<Event> := [];
    var p1 := p0 + [Enters(0)];
    var p2 := p1 + [Enters(1)];
    var p3 := p2 + [Acquires(0)];
    var p4 := p3 + [Finishes(0, false)];
    var p5 := p4 + [DropsPlace(0)];
    var p6 := p5 + [Unlocks(0)];
    var p7 := p6 + [Registers(0)];
    RunSnoc(d, p0, Enters(0));
    RunSnoc(d, p1, Enters(1));
    RunSnoc(d, p2, Acquires(0));
    assert 1 in Run(d, p3).slots;
    RunSnoc(d, p3, Finishes(0, false));
    RunSnoc(d, p4, DropsPlace(0));
    assert Run(d, p5).slots == {1};
    RunSnoc(d, p5, Unlocks(0));
    RunSnoc(d, p6, Registers(0));
    RunSnoc(d, p7, Checks(0));
  }

  /** Writer 1 then goes away: if nothing signals that, or the signal comes before job 0 registers for
      it, the job sleeps for ever. */
  function ThenTheOtherLeaves(d: Design): seq<Event> {
    if d.signals then LeftForAnother() + [DropsPlace(1)] + [Signals] + [Arms(0)]
    else LeftForAnother() + [DropsPlace(1)] + [Arms(0)]
  }

  lemma {:induction false} OtherLeaves(d: Design)
    ensures Run(d, LeftForAnother() + [DropsPlace(1)])
            == State(map[0 := Thread(if d.early then Sleeping else Arming, d.early, false), 1 := Thread(Done, false, false)],
                     {}, None, {0}, {}, if d.signals then 1 else 0, {})
  {
    LeftForAnotherEnds(d);
    RunSnoc(d, LeftForAnother(), DropsPlace(1));
  }

  lemma {:induction false} Strands(d: Design)
    requires !d.signals || !d.early
    ensures Stranded(Run(d, ThenTheOtherLeaves(d)), 0)
  {
    OtherLeaves(d);
    var q := LeftForAnother() + [DropsPlace(1)];
    if d.signals {
      RunSnoc(d, q, Signals);
      RunSnoc(d, q + [Signals], Arms(0));
    } else {
      RunSnoc(d, q, Arms(0));
    }
  }

  ghost predicate StrandsNobody(d: Design) {
    forall events: seq<Event>, i: Id :: !Stranded(Run(d, events), i)
  }

  /** No schedule strands a job exactly when a drained queue is signalled and jobs register for the
      signal before they check the queue. */
  lemma {:induction false} NobodyStrandedExactly(d: Design)
    ensures StrandsNobody(d) <==> d.signals && d.early
  {
    if d.signals && d.early {
      forall events: seq<Event>, i: Id
        ensures !Stranded(Run(d, events), i)
      {
        RunKeeps(events);
      }
    } else {
      Strands(d);
      var events := ThenTheOtherLeaves(d);
      assert Stranded(Run(d, events), 0);
    }
  }

  /** The job left for writer 1 loses its caller, and then writer 1 leaves: the job stays in the open
      batch with nobody there. */
  lemma {:induction false} LeftOpen()
    ensures var s := Run(Shipped, LeftForAnother() + [GoesAway(0)] + [DropsPlace(1)] + [Signals]);
            Resting(s) && s.batch == {0}
  {
    var p := LeftForAnother();
    LeftForAnotherEnds(Shipped);
    RunSnoc(Shipped, p, GoesAway(0));
    RunSnoc(Shipped, p + [GoesAway(0)], DropsPlace(1));
    RunSnoc(Shipped, p + [GoesAway(0)] + [DropsPlace(1)], Signals);
  }
}
