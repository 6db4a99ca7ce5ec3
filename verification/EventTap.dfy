/**
  The event tap: one task drains a stream into a shared list and notifies, any number of waiters
  register, look, sleep until notified or late, and look one last time (`delivery.rs`).

  The machine interleaves those steps in any order. A waiter's predicate is `want(i, event)`.
 */
module EventTap {
  import opened Options

  type Id = nat

  /** `Done` keeps how many events the deciding look saw. */
  datatype Pc<+E> = Registering | Looking | Arming | Sleeping | LastLook | Done(found: Option<E>, at: nat)

  /** `woken`: a notify came since the waiter registered. `late`: its deadline has passed. */
  datatype Waiter<+E> = Waiter(pc: Pc<E>, woken: bool, late: bool)

  /** `owed`: the drainer has pushed an event and not notified yet. */
  datatype Tap<E> = Tap(seen: seq<E>, owed: bool, waiters: map<Id, Waiter<E>>)

  datatype Event<+E> =
    | Arrives(e: E)
    | Notifies
    | Joins(i: Id)
    | Registers(i: Id)
    | Looks(i: Id)
    | Arms(i: Id)
    | Expires(i: Id)
    | Wakes(i: Id)
    | GivesUp(i: Id)
    | LooksLast(i: Id)

  /** The first event of `seen`, in arrival order, that `i` wants. */
  function Find<E>(want: (Id, E) -> bool, i: Id, seen: seq<E>): (r: Option<E>)
    ensures r.None? <==> forall k :: 0 <= k < |seen| ==> !want(i, seen[k])
    ensures r.Some? ==> FirstWanted(want, i, seen, r.value)
  {
    if seen == [] then None
    else if want(i, seen[0]) then Some(seen[0])
    else
      var r := Find(want, i, seen[1..]);
      assert forall k :: 1 <= k < |seen| ==> seen[k] == seen[1..][k - 1];
      assert r.Some? ==> FirstWanted(want, i, seen, r.value) by {
        if r.Some? {
          var k :| 0 <= k < |seen[1..]| && seen[1..][k] == r.value && want(i, r.value)
                   && forall j :: 0 <= j < k ==> !want(i, seen[1..][j]);
          assert seen[k + 1] == r.value;
        }
      }
      r
  }

  ghost predicate FirstWanted<E>(want: (Id, E) -> bool, i: Id, seen: seq<E>, e: E) {
    exists k :: 0 <= k < |seen| && seen[k] == e && want(i, e) && forall j :: 0 <= j < k ==> !want(i, seen[j])
  }

  predicate Registered<E>(early: bool, w: Waiter<E>) {
    (early && w.pc.Looking?) || w.pc.Sleeping?
  }

  /** `notify_waiters` reaches the waiters registered at that moment and no other. */
  function Notified<E>(early: bool, waiters: map<Id, Waiter<E>>): map<Id, Waiter<E>> {
    map i | i in waiters :: if Registered(early, waiters[i]) then waiters[i].(woken := true) else waiters[i]
  }

  function Put<E>(t: Tap<E>, i: Id, w: Waiter<E>): Tap<E> {
    t.(waiters := t.waiters[i := w])
  }

  predicate Enabled<E>(t: Tap<E>, ev: Event<E>) {
    match ev
    case Arrives(_) => !t.owed
    case Notifies => t.owed
    case Joins(i) => i !in t.waiters
    case Registers(i) => i in t.waiters && t.waiters[i].pc.Registering?
    case Looks(i) => i in t.waiters && t.waiters[i].pc.Looking?
    case Arms(i) => i in t.waiters && t.waiters[i].pc.Arming?
    case Expires(i) => i in t.waiters
    case Wakes(i) => i in t.waiters && t.waiters[i].pc.Sleeping? && t.waiters[i].woken
    case GivesUp(i) => i in t.waiters && t.waiters[i].pc.Sleeping? && !t.waiters[i].woken && t.waiters[i].late
    case LooksLast(i) => i in t.waiters && t.waiters[i].pc.LastLook?
  }

  /** `early`: a waiter registers for the notify before it looks, as the code does; otherwise it looks
      first and registers (`Arms`) before it sleeps. */
  function Step<E>(early: bool, want: (Id, E) -> bool, t: Tap<E>, ev: Event<E>): Tap<E>
    requires Enabled(t, ev)
  {
    match ev
    case Arrives(e) => t.(seen := t.seen + [e], owed := true)
    case Notifies => t.(owed := false, waiters := Notified(early, t.waiters))
    case Joins(i) => Put(t, i, Waiter(Registering, false, false))
    case Registers(i) => Put(t, i, t.waiters[i].(pc := Looking, woken := false))
    case Looks(i) =>
      var r := Find(want, i, t.seen);
      Put(t, i, t.waiters[i].(pc := if r.Some? then Done(r, |t.seen|) else if early then Sleeping else Arming))
    case Arms(i) => Put(t, i, t.waiters[i].(pc := Sleeping, woken := false))
    case Expires(i) => Put(t, i, t.waiters[i].(late := true))
    case Wakes(i) => Put(t, i, t.waiters[i].(pc := Registering))
    case GivesUp(i) => Put(t, i, t.waiters[i].(pc := LastLook))
    case LooksLast(i) => Put(t, i, t.waiters[i].(pc := Done(Find(want, i, t.seen), |t.seen|)))
  }

  /** Any schedule from an empty tap; an event that cannot happen then is skipped. */
  function Run<E>(early: bool, want: (Id, E) -> bool, events: seq<Event<E>>): Tap<E> {
    if events == [] then Tap([], false, map[])
    else
      var t := Run(early, want, events[..|events| - 1]);
      var ev := events[|events| - 1];
      if Enabled(t, ev) then Step(early, want, t, ev) else t
  }

  // ---------------------------------------------------------------- safety

  ghost predicate Collected<E>(want: (Id, E) -> bool, t: Tap<E>, i: Id) {
    exists k :: 0 <= k < |t.seen| && want(i, t.seen[k])
  }

  /** Asleep, un-notified, and the event is there: then the drainer still owes the notify. */
  ghost predicate NoLostWakeup<E>(want: (Id, E) -> bool, t: Tap<E>) {
    forall i :: i in t.waiters && t.waiters[i].pc.Sleeping? && !t.waiters[i].woken && Collected(want, t, i)
                ==> t.owed
  }

  /** An answer is the first match in arrival order; no answer means the look after the deadline
      saw no match. */
  ghost predicate Truthful<E>(want: (Id, E) -> bool, t: Tap<E>, i: Id)
    requires i in t.waiters
  {
    var w := t.waiters[i];
    && !w.pc.Arming? && (w.pc.LastLook? ==> w.late)
    && (w.pc.Done? ==>
          && w.pc.at <= |t.seen| && w.pc.found == Find(want, i, t.seen[..w.pc.at])
          && (w.pc.found.Some? ==> FirstWanted(want, i, t.seen, w.pc.found.value))
          && (w.pc.found.None? ==> w.late && forall k :: 0 <= k < w.pc.at ==> !want(i, t.seen[k])))
  }

  ghost predicate Inv<E>(want: (Id, E) -> bool, t: Tap<E>) {
    NoLostWakeup(want, t) && forall i :: i in t.waiters ==> Truthful(want, t, i)
  }

  lemma {:induction false} FirstWantedGrows<E>(want: (Id, E) -> bool, i: Id, seen: seq<E>, more: seq<E>, e: E)
    requires FirstWanted(want, i, seen, e)
    ensures FirstWanted(want, i, seen + more, e)
  {
    var k :| 0 <= k < |seen| && seen[k] == e && want(i, e) && forall j :: 0 <= j < k ==> !want(i, seen[j]);
    assert (seen + more)[k] == e;
  }

  lemma {:induction false} StepKeeps<E>(want: (Id, E) -> bool, t: Tap<E>, ev: Event<E>)
    requires Inv(want, t) && Enabled(t, ev)
    ensures Inv(want, Step(true, want, t, ev))
  {
    var u := Step(true, want, t, ev);
    forall i | i in u.waiters
      ensures Truthful(want, u, i)
    {
      assert t.seen[..|t.seen|] == t.seen;
      if i in t.waiters {
        assert Truthful(want, t, i);
        assert t.waiters[i].pc.Done? ==> u.seen[..t.waiters[i].pc.at] == t.seen[..t.waiters[i].pc.at];
        if ev.Arrives? && t.waiters[i].pc.Done? && t.waiters[i].pc.found.Some? {
          FirstWantedGrows(want, i, t.seen, [ev.e], t.waiters[i].pc.found.value);
        }
      }
    }
  }

  /** In every interleaving. */
  lemma {:induction false} RunKeeps<E>(want: (Id, E) -> bool, events: seq<Event<E>>)
    ensures Inv(want, Run(true, want, events))
    decreases |events|
  {
    if events != [] {
      var front, last := events[..|events| - 1], events[|events| - 1];
      RunKeeps(want, front);
      if Enabled(Run(true, want, front), last) {
        StepKeeps(want, Run(true, want, front), last);
      }
    }
  }

  // ---------------------------------------------------------------- progress

  /** Own steps left, at most, once a wanted event is collected. */
  function Rank<E>(pc: Pc<E>): nat {
    match pc
    case Sleeping => 3
    case Registering => 2
    case Looking => 1
    case Arming => 4
    case LastLook => 1
    case Done(_, _) => 0
  }

  ghost predicate Own<E>(ev: Event<E>, i: Id) {
    ev == Registers(i) || ev == Looks(i) || ev == Arms(i) || ev == Wakes(i) || ev == GivesUp(i) || ev == LooksLast(i)
  }

  lemma {:induction false} CollectedStays<E>(want: (Id, E) -> bool, t: Tap<E>, ev: Event<E>, i: Id)
    requires Collected(want, t, i) && Enabled(t, ev)
    ensures Collected(want, Step(true, want, t, ev), i)
  {
    var k :| 0 <= k < |t.seen| && want(i, t.seen[k]);
    assert Step(true, want, t, ev).seen[k] == t.seen[k];
  }

  lemma {:induction false} OwnStepIsNearer<E>(want: (Id, E) -> bool, t: Tap<E>, ev: Event<E>, i: Id)
    requires i in t.waiters && Collected(want, t, i) && Enabled(t, ev) && Own(ev, i)
    ensures var u := Step(true, want, t, ev); i in u.waiters && Rank(u.waiters[i].pc) < Rank(t.waiters[i].pc)
  {
    assert Find(want, i, t.seen).Some?;
  }

  lemma {:induction false} OthersLeaveAlone<E>(want: (Id, E) -> bool, t: Tap<E>, ev: Event<E>, i: Id)
    requires i in t.waiters && Enabled(t, ev) && !Own(ev, i)
    ensures var u := Step(true, want, t, ev); i in u.waiters && u.waiters[i].pc == t.waiters[i].pc
  {
  }

  /** Once its event is collected, every step a waiter takes brings it nearer and no other step
      takes it back. */
  lemma {:induction false} StepsBringNearer<E>(want: (Id, E) -> bool, t: Tap<E>, ev: Event<E>, i: Id)
    requires i in t.waiters && Collected(want, t, i) && Enabled(t, ev)
    ensures var u := Step(true, want, t, ev);
            && i in u.waiters && Collected(want, u, i)
            && (if Own(ev, i) then Rank(u.waiters[i].pc) < Rank(t.waiters[i].pc)
                else u.waiters[i].pc == t.waiters[i].pc)
  {
    CollectedStays(want, t, ev, i);
    if Own(ev, i) {
      OwnStepIsNearer(want, t, ev, i);
    } else {
      OthersLeaveAlone(want, t, ev, i);
    }
  }

  /** A waiter whose event is collected can always move, or the notify it waits for is still owed;
      so no interleaving leaves it asleep for good. */
  lemma {:induction false} NeverStuck<E>(want: (Id, E) -> bool, events: seq<Event<E>>, i: Id) returns (ev: Event<E>)
    requires var t := Run(true, want, events);
             i in t.waiters && !t.waiters[i].pc.Done? && Collected(want, t, i)
    ensures var t := Run(true, want, events);
            && Enabled(t, ev)
            && (Own(ev, i) || (ev == Notifies && !Enabled(t, Wakes(i)) && Enabled(Step(true, want, t, ev), Wakes(i))))
  {
    RunKeeps(want, events);
    var t := Run(true, want, events);
    match t.waiters[i].pc
    case Registering => ev := Registers(i);
    case Looking => ev := Looks(i);
    case LastLook => ev := LooksLast(i);
    case Sleeping =>
      if t.waiters[i].woken {
        ev := Wakes(i);
      } else {
        ev := Notifies;
      }
  }

  lemma {:induction false} RunSnoc<E>(early: bool, want: (Id, E) -> bool, events: seq<Event<E>>, ev: Event<E>)
    ensures var t := Run(early, want, events);
            Run(early, want, events + [ev]) == if Enabled(t, ev) then Step(early, want, t, ev) else t
  {
    assert (events + [ev])[..|events|] == events;
  }

  /** How far `i` is from its answer, counting the notify it may need. */
  function Distance<E>(t: Tap<E>, i: Id): nat
    requires i in t.waiters
  {
    2 * Rank(t.waiters[i].pc) - (if t.waiters[i].pc.Sleeping? && t.waiters[i].woken then 1 else 0)
  }

  /** From any reachable state the run can go on to answer a waiter whose event is collected, with
      the first match in arrival order: a collected event is never lost to a waiter. */
  lemma {:induction false} CollectedIsAnswered<E>(want: (Id, E) -> bool, events: seq<Event<E>>, i: Id)
      returns (more: seq<Event<E>>)
    requires var t := Run(true, want, events);
             i in t.waiters && !t.waiters[i].pc.Done? && Collected(want, t, i)
    ensures var t := Run(true, want, events);
            var u := Run(true, want, events + more);
            && |more| <= 6
            && u.seen == t.seen && i in u.waiters && u.waiters[i].pc.Done?
            && u.waiters[i].pc.found.Some? && FirstWanted(want, i, t.seen, u.waiters[i].pc.found.value)
    ensures |more| <= Distance(Run(true, want, events), i)
    decreases Distance(Run(true, want, events), i)
  {
    var t := Run(true, want, events);
    RunKeeps(want, events);
    assert Truthful(want, t, i);
    var ev := NeverStuck(want, events, i);
    RunSnoc(true, want, events, ev);
    StepsBringNearer(want, t, ev, i);
    var u := Run(true, want, events + [ev]);
    if u.waiters[i].pc.Done? {
      more := [ev];
    } else {
      assert u == Step(true, want, t, ev);
      if !Own(ev, i) {
        assert u.waiters[i].pc.Sleeping? && u.waiters[i].woken && !t.waiters[i].woken;
      }
      var rest := CollectedIsAnswered(want, events + [ev], i);
      more := [ev] + rest;
      assert events + more == (events + [ev]) + rest;
    }
  }

  // ---------------------------------------------------------------- deadlines

  /** How far a late waiter is from giving up. */
  function LateDistance<E>(w: Waiter<E>): nat {
    match w.pc
    case Sleeping => if w.woken then 6 else 2
    case Registering => 4
    case Looking => if w.woken then 7 else 3
    case LastLook => 1
    case _ => 0
  }

  lemma {:induction false} GivesUpFrom<E>(want: (Id, E) -> bool, events: seq<Event<E>>, i: Id) returns (more: seq<Event<E>>)
    requires var t := Run(true, want, events);
             i in t.waiters && t.waiters[i].late && !t.waiters[i].pc.Done? && !Collected(want, t, i)
    ensures var t := Run(true, want, events);
            var u := Run(true, want, events + more);
            u.seen == t.seen && i in u.waiters && u.waiters[i].pc == Done(None, |t.seen|)
    decreases LateDistance(Run(true, want, events).waiters[i])
  {
    var t := Run(true, want, events);
    RunKeeps(want, events);
    assert Truthful(want, t, i);
    var w := t.waiters[i];
    var ev: Event<E> := match w.pc
      case Registering => Registers(i)
      case Looking => Looks(i)
      case Sleeping => if w.woken then Wakes(i) else GivesUp(i)
      case _ => LooksLast(i);
    RunSnoc(true, want, events, ev);
    LateStep(want, t, ev, i);
    if w.pc.LastLook? {
      more := [ev];
    } else {
      var rest := GivesUpFrom(want, events + [ev], i);
      more := [ev] + rest;
      assert events + more == (events + [ev]) + rest;
    }
  }

  lemma {:induction false} LateStep<E>(want: (Id, E) -> bool, t: Tap<E>, ev: Event<E>, i: Id)
    requires i in t.waiters && t.waiters[i].late && !Collected(want, t, i) && Enabled(t, ev)
    requires ev == Registers(i) || ev == Looks(i) || ev == Wakes(i) || ev == GivesUp(i) || ev == LooksLast(i)
    ensures var u := Step(true, want, t, ev);
            && u.seen == t.seen && i in u.waiters && u.waiters[i].late
            && (if ev == LooksLast(i) then u.waiters[i].pc == Done(None, |t.seen|)
                else !u.waiters[i].pc.Done? && LateDistance(u.waiters[i]) < LateDistance(t.waiters[i]))
  {
    assert Find(want, i, t.seen) == None;
  }

  /** A waiter whose event never comes can always end with no answer once its deadline passes. */
  lemma {:induction false} LateWaiterEnds<E>(want: (Id, E) -> bool, events: seq<Event<E>>, i: Id) returns (more: seq<Event<E>>)
    requires var t := Run(true, want, events); i in t.waiters && !t.waiters[i].pc.Done? && !Collected(want, t, i)
    ensures var t := Run(true, want, events);
            var u := Run(true, want, events + [Expires(i)] + more);
            i in u.waiters && u.waiters[i].pc == Done(None, |t.seen|)
  {
    RunSnoc(true, want, events, Expires(i));
    more := GivesUpFrom(want, events + [Expires(i)], i);
  }

  // ---------------------------------------------------------------- the order matters

  /** The waiter looks in vain; the event comes and is notified before the waiter registers. */
  function LateRun(): seq<Event<nat>> {
    [] + [Joins(0)] + [Registers(0)] + [Looks(0)] + [Arrives(7)] + [Notifies] + [Arms(0)]
  }

  lemma {:induction false} LateRunEnds(want: (Id, nat) -> bool)
    ensures Run(false, want, LateRun()) == Tap([7], false, map[0 := Waiter(Sleeping, false, false)])
  {
    var p0: seq<Event<nat>> := [];
    var p1 := p0 + [Joins(0)];
    var p2 := p1 + [Registers(0)];
    var p3 := p2 + [Looks(0)];
    var p4 := p3 + [Arrives(7)];
    var p5 := p4 + [Notifies];
    RunSnoc(false, want, p0, Joins(0));
    RunSnoc(false, want, p1, Registers(0));
    RunSnoc(false, want, p2, Looks(0));
    assert Run(false, want, p3) == Tap([], false, map[0 := Waiter(Arming, false, false)]);
    RunSnoc(false, want, p3, Arrives(7));
    RunSnoc(false, want, p4, Notifies);
    assert Run(false, want, p5) == Tap([7], false, map[0 := Waiter(Arming, false, false)]);
    RunSnoc(false, want, p5, Arms(0));
  }

  /** No interleaving loses a wakeup exactly when waiters register before they look. */
  lemma {:induction false} NoLostWakeupExactly(early: bool)
    ensures (forall want: (Id, nat) -> bool, events: seq<Event<nat>> :: NoLostWakeup(want, Run(early, want, events)))
            <==> early
  {
    if early {
      forall want: (Id, nat) -> bool, events: seq<Event<nat>>
        ensures NoLostWakeup(want, Run(early, want, events))
      {
        RunKeeps(want, events);
      }
    } else {
      var want := (i: Id, e: nat) => e == 7;
      LateRunEnds(want);
      var t := Run(early, want, LateRun());
      assert want(0, t.seen[0]) && Collected(want, t, 0);
      assert !NoLostWakeup(want, Run(early, want, LateRun()));
    }
  }
}
