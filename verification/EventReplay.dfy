/**
  An account's event stream: one publisher stamps, keeps a bounded replay ring and broadcasts
  (`event_bridge.rs`, `event_ring.rs`); a subscription joins the live broadcast, replays the end
  of the ring and then forwards what it had not replayed (`forward` in `event_service.rs`).

  An event is its sequence number: the publisher numbers them 0, 1, 2, ... and `keep[n]` says
  whether event `n` belongs in the ring (`replayable`).
 */
module EventReplay {

  // ---------------------------------------------------------------- the ring

  /** The last `n` elements, or all of them. */
  function Tail<T>(s: seq<T>, n: nat): (r: seq<T>)
    ensures |r| == if n < |s| then n else |s|
  {
    if n < |s| then s[|s| - n..] else s
  }

  class EventRing<T> {
    var queue: seq<T>
    const capacity: nat

    constructor (capacity: nat)
      ensures queue == [] && this.capacity == capacity
    {
      this.capacity := capacity;
      queue := [];
    }

    /** Append, dropping the oldest at capacity; nothing is kept when the capacity is 0. */
    method Push(event: T)
      requires |queue| <= capacity
      modifies this
      ensures queue == Tail(old(queue) + [event], capacity)
    {
      if capacity == 0 {
        return;
      }
      ghost var was := queue;
      while |queue| >= capacity
        invariant queue == was || (|was| == capacity && queue == was[1..])
      {
        queue := queue[1..];
      }
      queue := queue + [event];
      assert |was| == capacity ==> (was + [event])[1..] == was[1..] + [event];
    }

    method Snapshot(n: nat) returns (events: seq<T>)
      ensures events == Tail(queue, n)
    {
      var take := if n < |queue| then n else |queue|;
      events := queue[|queue| - take..];
    }
  }

  // ---------------------------------------------------------------- the machine

  /** `capacity` of the ring, `replay` asked for by the client, `backlog` the broadcast channel
      keeps for a slow receiver. */
  datatype Setup = Setup(capacity: nat, replay: nat, backlog: nat)

  datatype Item = Ev(n: nat) | Gap(missed: nat)

  /** `from`: the first event broadcast to this receiver. `newest`: the highest replayed number,
      -1 for none. `at`: how many events were stamped when the ring was read. */
  datatype Subscription =
    | Absent
    | Joined(from: nat)
    | Live(from: nat, at: nat, replayed: seq<nat>, newest: int, cursor: nat, out: seq<Item>, skipped: nat)

  /** Events `0..sent` have been broadcast; one more may be stamped and in the ring. */
  datatype State = State(keep: seq<bool>, ring: seq<nat>, sent: nat, sub: Subscription)

  datatype Event = Stamps(keep: bool) | Broadcasts | Joins | Snapshots | Receives

  const Initial: State := State([], [], 0, Absent)

  function Push(u: Setup, s: State, keep: bool): State {
    s.(keep := s.keep + [keep],
       ring := if keep then Tail(s.ring + [|s.keep|], u.capacity) else s.ring)
  }

  function Newest(replayed: seq<nat>): int {
    if replayed == [] then -1
    else
      var rest := Newest(replayed[..|replayed| - 1]);
      if rest < replayed[|replayed| - 1] then replayed[|replayed| - 1] else rest
  }

  /** One `recv` on the broadcast and what `forward` does with it. */
  function Receive(u: Setup, sub: Subscription, sent: nat): Subscription
    requires sub.Live? && sub.cursor < sent
  {
    if sent - sub.cursor > u.backlog then
      sub.(cursor := sent - u.backlog, out := sub.out + [Gap(sent - u.backlog - sub.cursor)])
    else if sub.cursor <= sub.newest then sub.(cursor := sub.cursor + 1, skipped := sub.skipped + 1)
    else sub.(cursor := sub.cursor + 1, out := sub.out + [Ev(sub.cursor)])
  }

  function Step(u: Setup, s: State, ev: Event): State {
    match ev
    case Stamps(keep) => if s.sent == |s.keep| then Push(u, s, keep) else s
    case Broadcasts => if s.sent < |s.keep| then s.(sent := s.sent + 1) else s
    case Joins => if s.sub.Absent? then s.(sub := Joined(s.sent)) else s
    case Snapshots =>
      if !s.sub.Joined? then s
      else
        var replayed := Tail(s.ring, u.replay);
        s.(sub := Live(s.sub.from, |s.keep|, replayed, Newest(replayed), s.sub.from, [], 0))
    case Receives =>
      if s.sub.Live? && s.sub.cursor < s.sent then s.(sub := Receive(u, s.sub, s.sent)) else s
  }

  function Run(u: Setup, events: seq<Event>): State {
    if events == [] then Initial
    else Step(u, Run(u, events[..|events| - 1]), events[|events| - 1])
  }

  /** What the client got, in order: the replay, then the live items. */
  function Stream(sub: Subscription): seq<Item>
    requires sub.Live?
  {
    seq(|sub.replayed|, i requires 0 <= i < |sub.replayed| => Ev(sub.replayed[i])) + sub.out
  }

  // ---------------------------------------------------------------- the ring's contents

  /** The numbers of the replayable events, in order. */
  function Kept(keep: seq<bool>): (r: seq<nat>)
    ensures forall i :: 0 <= i < |r| ==> r[i] < |keep| && keep[r[i]]
    ensures Increasing(r)
  {
    if keep == [] then []
    else
      var n := |keep| - 1;
      if keep[n] then Kept(keep[..n]) + [n] else Kept(keep[..n])
  }

  ghost predicate Increasing(s: seq<nat>) {
    forall i, j :: 0 <= i < j < |s| ==> s[i] < s[j]
  }

  lemma {:induction false} KeptHasAll(keep: seq<bool>, n: nat)
    requires n < |keep| && keep[n]
    ensures n in Kept(keep)
    decreases |keep|
  {
    var m := |keep| - 1;
    if n == m {
      assert Kept(keep)[|Kept(keep)| - 1] == n;
    } else {
      KeptHasAll(keep[..m], n);
      assert n in Kept(keep[..m]);
    }
  }

  lemma {:induction false} IncreasingSpreads(s: seq<nat>, i: nat, j: nat)
    requires Increasing(s) && i <= j < |s|
    ensures s[j] - s[i] >= j - i
    decreases j
  {
    if i < j {
      IncreasingSpreads(s, i, j - 1);
    }
  }

  lemma {:induction false} NewestOfIncreasing(s: seq<nat>)
    requires Increasing(s)
    ensures Newest(s) == if s == [] then -1 else s[|s| - 1]
  {
    if |s| > 1 {
      NewestOfIncreasing(s[..|s| - 1]);
    }
  }

  /** Every event of `from..newest` is replayable. */
  predicate AllKept(keep: seq<bool>, from: nat, newest: int)
    requires newest < |keep|
  {
    forall m :: from <= m <= newest ==> keep[m]
  }

  ghost predicate Covers(replayed: seq<nat>, from: nat, newest: int) {
    forall m: nat :: from <= m <= newest ==> m in replayed
  }

  /** An increasing list that holds every number from its `i`-th to its last is that long. */
  lemma {:induction false} CoversCounts(r: seq<nat>, from: nat, i: nat)
    requires Increasing(r) && i < |r| && r[i] == from && Covers(r, from, r[|r| - 1])
    ensures r[|r| - 1] - from <= |r| - 1 - i
    decreases |r| - i
  {
    if i + 1 < |r| {
      assert from + 1 <= r[i + 1] <= r[|r| - 1];
      assert from + 1 in r;
      var j :| 0 <= j < |r| && r[j] == from + 1;
      assert j == i + 1;
      CoversCounts(r, from + 1, i + 1);
    }
  }

  lemma {:induction false} TailIsIncreasing(all: seq<nat>, k: nat)
    requires Increasing(all)
    ensures Increasing(Tail(all, k))
    ensures Newest(Tail(all, k)) == if k == 0 || all == [] then -1 else all[|all| - 1]
  {
    NewestOfIncreasing(Tail(all, k));
  }

  /** What lies less than `k` below the last element is among the last `k`. */
  lemma {:induction false} TailHas(all: seq<nat>, k: nat, i: nat)
    requires Increasing(all) && i < |all| && all[|all| - 1] - all[i] < k
    ensures all[i] in Tail(all, k)
  {
    IncreasingSpreads(all, i, |all| - 1);
    assert Tail(all, k)[i - (|all| - |Tail(all, k)|)] == all[i];
  }

  lemma {:induction false} CoversFits(all: seq<nat>, k: nat, from: nat)
    requires Increasing(all)
    requires var r := Tail(all, k);
             Covers(r, from, Newest(r)) && from <= Newest(r)
    ensures var newest := Newest(Tail(all, k));
            newest - from + 1 <= k && forall m: nat :: from <= m <= newest ==> m in all
  {
    var r := Tail(all, k);
    TailIsIncreasing(all, k);
    NewestOfIncreasing(r);
    var newest := Newest(r);
    assert from in r;
    var i :| 0 <= i < |r| && r[i] == from;
    CoversCounts(r, from, i);
    forall m: nat | from <= m <= newest
      ensures m in all
    {
      assert m in r;
    }
  }

  /** The last `k` cover the overlap exactly when the list does and the overlap fits. */
  lemma {:induction false} TailCoversExactly(all: seq<nat>, k: nat, from: nat)
    requires Increasing(all)
    ensures var newest := Newest(Tail(all, k));
            Covers(Tail(all, k), from, newest) <==> Covers(all, from, newest) && newest - from + 1 <= k
  {
    var newest := Newest(Tail(all, k));
    if Covers(all, from, newest) && newest - from + 1 <= k {
      TailIsIncreasing(all, k);
      forall m: nat | from <= m <= newest
        ensures m in Tail(all, k)
      {
        assert m in all;
        var i :| 0 <= i < |all| && all[i] == m;
        TailHas(all, k, i);
      }
    }
    if Covers(Tail(all, k), from, newest) && from <= newest {
      CoversFits(all, k, from);
    }
  }

  lemma {:induction false} AllKeptIsCovered(keep: seq<bool>, from: nat, newest: int)
    requires newest < |keep|
    ensures AllKept(keep, from, newest) <==> Covers(Kept(keep), from, newest)
  {
    if AllKept(keep, from, newest) {
      forall m: nat | from <= m <= newest
        ensures m in Kept(keep)
      {
        KeptHasAll(keep, m);
      }
    }
    if Covers(Kept(keep), from, newest) {
      forall m: nat | from <= m <= newest
        ensures keep[m]
      {
        assert m in Kept(keep);
      }
    }
  }

  // ---------------------------------------------------------------- what every run keeps

  function Min(a: nat, b: nat): nat {
    if a < b then a else b
  }

  /** The ring is the end of the replayable events, and one event at most awaits its broadcast. */
  ghost predicate Published(u: Setup, s: State) {
    s.ring == Tail(Kept(s.keep), u.capacity) && s.sent <= |s.keep| <= s.sent + 1
  }

  function Missed(out: seq<Item>): nat {
    if out == [] then 0
    else Missed(out[..|out| - 1]) + if out[|out| - 1].Gap? then out[|out| - 1].missed else 0
  }

  function Forwarded(out: seq<Item>): nat {
    if out == [] then 0
    else Forwarded(out[..|out| - 1]) + if out[|out| - 1].Ev? then 1 else 0
  }

  ghost predicate InOrder(out: seq<Item>, above: int, below: nat) {
    && (forall i :: 0 <= i < |out| && out[i].Ev? ==> above < out[i].n < below)
    && (forall i, j :: 0 <= i < j < |out| && out[i].Ev? && out[j].Ev? ==> out[i].n < out[j].n)
  }

  /** Unless it lagged, everything after the newest replayed event came live. */
  ghost predicate Complete(out: seq<Item>, from: nat, newest: int, cursor: nat) {
    Missed(out) == 0 ==> forall m: nat :: from <= m < cursor && newest < m ==> Ev(m) in out
  }

  /** What came live is in order, and every event broadcast is accounted for. */
  ghost predicate Flows(b: Subscription)
    requires b.Live?
  {
    && b.from <= b.cursor
    && InOrder(b.out, Above(b), b.cursor)
    && b.cursor - b.from == Forwarded(b.out) + b.skipped + Missed(b.out)
    && Complete(b.out, b.from, b.newest, b.cursor)
  }

  function Above(b: Subscription): int
    requires b.Live?
  {
    if b.newest < b.from - 1 then b.from - 1 else b.newest
  }

  ghost predicate Following(u: Setup, s: State) {
    s.sub.Live? ==>
      && Flows(s.sub) && s.sub.cursor <= s.sent && s.sub.at <= |s.keep|
      && s.sub.replayed == Tail(Kept(s.keep[..s.sub.at]), Min(u.capacity, u.replay))
      && s.sub.newest == Newest(s.sub.replayed)
  }

  ghost predicate Inv(u: Setup, s: State) {
    && Published(u, s)
    && (s.sub.Joined? ==> s.sub.from <= s.sent)
    && Following(u, s)
  }

  lemma {:induction false} TailOfTail<T>(s: seq<T>, a: nat, b: nat)
    ensures Tail(Tail(s, a), b) == Tail(s, Min(a, b))
  {
  }

  lemma {:induction false} TailSnoc<T>(s: seq<T>, x: T, n: nat)
    ensures Tail(Tail(s, n) + [x], n) == Tail(s + [x], n)
  {
  }

  lemma {:induction false} KeptSnoc(keep: seq<bool>, k: bool)
    ensures Kept(keep + [k]) == if k then Kept(keep) + [|keep|] else Kept(keep)
  {
    assert (keep + [k])[..|keep|] == keep;
  }

  lemma {:induction false} PushPublishes(u: Setup, s: State, keep: bool)
    requires Published(u, s) && s.sent == |s.keep|
    ensures Published(u, Push(u, s, keep))
  {
    KeptSnoc(s.keep, keep);
    TailSnoc(Kept(s.keep), |s.keep|, u.capacity);
  }

  lemma {:induction false} PushFollows(u: Setup, s: State, keep: bool)
    requires Following(u, s)
    ensures Following(u, Push(u, s, keep))
  {
    if s.sub.Live? {
      assert Push(u, s, keep).keep[..s.sub.at] == s.keep[..s.sub.at];
    }
  }

  lemma {:induction false} StampKeeps(u: Setup, s: State, keep: bool)
    requires Inv(u, s) && s.sent == |s.keep|
    ensures Inv(u, Push(u, s, keep))
  {
    assert Published(u, Push(u, s, keep)) by {
      PushPublishes(u, s, keep);
    }
    assert Following(u, Push(u, s, keep)) by {
      PushFollows(u, s, keep);
    }
  }

  lemma {:induction false} SnapshotKeeps(u: Setup, s: State)
    requires Inv(u, s) && s.sub.Joined?
    ensures Inv(u, Step(u, s, Snapshots))
  {
    assert s.keep[..|s.keep|] == s.keep;
    TailOfTail(Kept(s.keep), u.capacity, u.replay);
  }

  lemma {:induction false} OutSnoc(out: seq<Item>, x: Item)
    ensures Missed(out + [x]) == Missed(out) + if x.Gap? then x.missed else 0
    ensures Forwarded(out + [x]) == Forwarded(out) + if x.Ev? then 1 else 0
  {
    assert (out + [x])[..|out|] == out;
  }

  lemma {:induction false} InOrderSnoc(out: seq<Item>, x: Item, above: int, below: nat, next: nat)
    requires InOrder(out, above, below) && below <= next && (x.Ev? ==> above < x.n == below < next)
    ensures InOrder(out + [x], above, next)
  {
  }

  lemma {:induction false} CompleteSnoc(out: seq<Item>, from: nat, newest: int, cursor: nat)
    requires Complete(out, from, newest, cursor)
    ensures Complete(out + [Ev(cursor)], from, newest, cursor + 1)
  {
    OutSnoc(out, Ev(cursor));
    assert (out + [Ev(cursor)])[|out|] == Ev(cursor);
    forall m: nat | Missed(out) == 0 && from <= m < cursor + 1 && newest < m
      ensures Ev(m) in out + [Ev(cursor)]
    {
      assert m < cursor ==> Ev(m) in out;
    }
  }

  lemma {:induction false} ReceiveFlows(u: Setup, b: Subscription, sent: nat)
    requires b.Live? && Flows(b) && b.cursor < sent
    ensures var c := Receive(u, b, sent);
            && c.Live? && Flows(c) && c.cursor <= sent
            && c == b.(cursor := c.cursor, out := c.out, skipped := c.skipped)
  {
    if sent - b.cursor > u.backlog {
      var x := Gap(sent - u.backlog - b.cursor);
      OutSnoc(b.out, x);
      InOrderSnoc(b.out, x, Above(b), b.cursor, sent - u.backlog);
    } else if b.cursor > b.newest {
      OutSnoc(b.out, Ev(b.cursor));
      InOrderSnoc(b.out, Ev(b.cursor), Above(b), b.cursor, b.cursor + 1);
      CompleteSnoc(b.out, b.from, b.newest, b.cursor);
    }
  }

  lemma {:induction false} ReceiveKeeps(u: Setup, s: State)
    requires Inv(u, s) && s.sub.Live? && s.sub.cursor < s.sent
    ensures Inv(u, s.(sub := Receive(u, s.sub, s.sent)))
  {
    ReceiveFlows(u, s.sub, s.sent);
  }

  lemma {:induction false} StepKeeps(u: Setup, s: State, ev: Event)
    requires Inv(u, s)
    ensures Inv(u, Step(u, s, ev))
  {
    match ev
    case Stamps(keep) => if s.sent == |s.keep| { StampKeeps(u, s, keep); }
    case Broadcasts =>
    case Joins =>
    case Snapshots => if s.sub.Joined? { SnapshotKeeps(u, s); }
    case Receives => if s.sub.Live? && s.sub.cursor < s.sent { ReceiveKeeps(u, s); }
  }

  lemma {:induction false} RunKeeps(u: Setup, events: seq<Event>)
    ensures Inv(u, Run(u, events))
    decreases |events|
  {
    if events != [] {
      RunKeeps(u, events[..|events| - 1]);
      StepKeeps(u, Run(u, events[..|events| - 1]), events[|events| - 1]);
    }
  }

  // ---------------------------------------------------------------- the theorems

  /** No event comes twice in one stream, and they come in order: in every run. */
  lemma {:induction false} NoDuplicates(u: Setup, events: seq<Event>, i: nat, j: nat)
    requires Run(u, events).sub.Live?
    requires var out := Stream(Run(u, events).sub); i < j < |out| && out[i].Ev? && out[j].Ev?
    ensures var out := Stream(Run(u, events).sub); out[i].n < out[j].n
  {
    RunKeeps(u, events);
    var s := Run(u, events);
    TailIsIncreasing(Kept(s.keep[..s.sub.at]), Min(u.capacity, u.replay));
    NewestOfIncreasing(s.sub.replayed);
  }

  /** Every event broadcast to the subscription was forwarded, was skipped as already replayed, or
      is counted by a gap marker. */
  lemma {:induction false} NothingUnaccounted(u: Setup, events: seq<Event>)
    requires Run(u, events).sub.Live?
    ensures var b := Run(u, events).sub; b.cursor - b.from == Forwarded(b.out) + b.skipped + Missed(b.out)
  {
    RunKeeps(u, events);
  }

  ghost predicate AllDelivered(b: Subscription)
    requires b.Live?
  {
    forall m: nat :: b.from <= m < b.cursor ==> Ev(m) in Stream(b)
  }

  lemma {:induction false} DeliveredIsCovered(b: Subscription)
    requires b.Live? && b.newest < b.cursor && InOrder(b.out, b.newest, b.cursor)
    requires Complete(b.out, b.from, b.newest, b.cursor) && Missed(b.out) == 0
    ensures AllDelivered(b) <==> Covers(b.replayed, b.from, b.newest)
  {
    var out := Stream(b);
    if AllDelivered(b) {
      forall m: nat | b.from <= m <= b.newest
        ensures m in b.replayed
      {
        assert Ev(m) in out;
        var i :| 0 <= i < |out| && out[i] == Ev(m);
        assert i < |b.replayed| && b.replayed[i] == m;
      }
    }
    if Covers(b.replayed, b.from, b.newest) {
      forall m: nat | b.from <= m < b.cursor
        ensures Ev(m) in out
      {
        if m <= b.newest {
          assert m in b.replayed;
          var i :| 0 <= i < |b.replayed| && b.replayed[i] == m;
          assert out[i] == Ev(m);
        } else {
          assert Ev(m) in b.out;
          var i :| 0 <= i < |b.out| && b.out[i] == Ev(m);
          assert out[|b.replayed| + i] == Ev(m);
        }
      }
    }
  }

  lemma {:induction false} CoveredExactly(keep: seq<bool>, at: nat, k: nat, from: nat)
    requires at <= |keep|
    ensures var r := Tail(Kept(keep[..at]), k);
            && Newest(r) < |keep|
            && (Covers(r, from, Newest(r)) <==> AllKept(keep, from, Newest(r)) && Newest(r) - from + 1 <= k)
  {
    var early := keep[..at];
    var newest := Newest(Tail(Kept(early), k));
    TailIsIncreasing(Kept(early), k);
    TailCoversExactly(Kept(early), k, from);
    AllKeptIsCovered(early, from, newest);
    assert AllKept(early, from, newest) == AllKept(keep, from, newest) by {
      assert forall m :: 0 <= m < at ==> early[m] == keep[m];
    }
  }

  /** A subscriber that did not lag got every event broadcast since it joined exactly when those up
      to the newest it replayed were all replayable and no more than the replay and the ring hold.
      (With `NoDuplicates`: exactly once each.) */
  lemma {:induction false} ExactlyOnceExactly(u: Setup, events: seq<Event>)
    requires var b := Run(u, events).sub; b.Live? && Missed(b.out) == 0 && b.newest < b.cursor
    ensures var s := Run(u, events);
            && s.sub.newest < |s.keep|
            && (AllDelivered(s.sub) <==>
                  && AllKept(s.keep, s.sub.from, s.sub.newest)
                  && s.sub.newest - s.sub.from + 1 <= Min(u.capacity, u.replay))
  {
    RunKeeps(u, events);
    var s := Run(u, events);
    DeliveredIsCovered(s.sub);
    CoveredExactly(s.keep, s.sub.at, Min(u.capacity, u.replay), s.sub.from);
  }

  // ---------------------------------------------------------------- where the contract ends

  /** Two events are published between joining and reading the ring, then both are received. */
  function OverlapRun(first: bool): seq<Event> {
    OverlapStart(first) + [Snapshots] + [Receives] + [Receives]
  }

  lemma {:induction false} RunSnoc(u: Setup, events: seq<Event>, ev: Event)
    ensures Run(u, events + [ev]) == Step(u, Run(u, events), ev)
  {
    assert (events + [ev])[..|events|] == events;
  }

  /** Both events are out before the ring is read. */
  function OverlapStart(first: bool): seq<Event> {
    [] + [Joins] + [Stamps(first)] + [Broadcasts] + [Stamps(true)] + [Broadcasts]
  }

  lemma {:induction false} OverlapStarts(u: Setup, first: bool)
    requires u.capacity >= 2
    ensures Run(u, OverlapStart(first)) == State([first, true], if first then [0, 1] else [1], 2, Joined(0))
  {
    var p0: seq<Event> := [];
    var p1 := p0 + [Joins];
    var p2 := p1 + [Stamps(first)];
    var p3 := p2 + [Broadcasts];
    var p4 := p3 + [Stamps(true)];
    RunSnoc(u, p0, Joins);
    RunSnoc(u, p1, Stamps(first));
    assert Run(u, p2) == State([first], if first then [0] else [], 0, Joined(0));
    RunSnoc(u, p2, Broadcasts);
    RunSnoc(u, p3, Stamps(true));
    assert Run(u, p4) == State([first, true], if first then [0, 1] else [1], 1, Joined(0));
    RunSnoc(u, p4, Broadcasts);
  }

  lemma {:induction false} OverlapRunEnds(u: Setup, first: bool)
    requires u.capacity >= 2 && u.backlog >= 2 && u.replay >= 1
    requires first ==> u.replay == 1
    ensures Run(u, OverlapRun(first)).sub == Live(0, 2, [1], 1, 2, [], 2)
  {
    OverlapStarts(u, first);
    var p5 := OverlapStart(first);
    var p6 := p5 + [Snapshots];
    var p7 := p6 + [Receives];
    RunSnoc(u, p5, Snapshots);
    assert Tail(if first then [0, 1] else [1], u.replay) == [1];
    assert Newest([1]) == 1;
    RunSnoc(u, p6, Receives);
    RunSnoc(u, p7, Receives);
  }

  /** The contract fails: with a replay of 1 both events are skipped live and only the second was
      replayed. With any replay, an event kept out of the ring, such as a history sync, is lost when
      a replayable one follows it. */
  lemma {:induction false} ReplayLosesAnEvent(first: bool, replay: nat)
    requires replay >= 1 && (first ==> replay == 1)
    ensures var b := Run(Setup(256, replay, 1024), OverlapRun(first)).sub;
            && b.Live? && b.from == 0 && b.cursor == 2 && Missed(b.out) == 0
            && Stream(b) == [Ev(1)] && !AllDelivered(b)
  {
    var u := Setup(256, replay, 1024);
    OverlapRunEnds(u, first);
    var b := Run(u, OverlapRun(first)).sub;
    assert Ev(0) !in Stream(b);
  }
}
