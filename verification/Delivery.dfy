/**
  Judging sends by delivery: the report (`report.rs`), the send-time half and the receipt half
  (`delivery.rs`), and what a whole run's exit colour proves.
 */
module Delivery {
  import opened Options
  import opened EventTap

  datatype Outcome = Pass | Accepted | Fail

  datatype Check = Check(name: string, outcome: Outcome, detail: string)

  datatype Counts = Counts(pass: nat, accepted: nat, fail: nat)

  datatype Result<+T, +F> = Ok(value: T) | Err(error: F)

  // ---------------------------------------------------------------- the report

  function Tally(checks: seq<Check>, o: Outcome): (n: nat)
    ensures n <= |checks|
  {
    if checks == [] then 0
    else Tally(checks[..|checks| - 1], o) + if checks[|checks| - 1].outcome == o then 1 else 0
  }

  lemma {:induction false} TallyIsPresence(checks: seq<Check>, o: Outcome)
    ensures Tally(checks, o) > 0 <==> exists k :: 0 <= k < |checks| && checks[k].outcome == o
    decreases |checks|
  {
    if checks != [] {
      var front := checks[..|checks| - 1];
      TallyIsPresence(front, o);
      assert forall k :: 0 <= k < |front| ==> front[k] == checks[k];
    }
  }

  class Report {
    var checks: seq<Check>

    constructor ()
      ensures checks == []
    {
      checks := [];
    }

    method Record(name: string, outcome: Outcome, detail: string)
      modifies this
      ensures checks == old(checks) + [Check(name, outcome, detail)]
    {
      checks := checks + [Check(name, outcome, detail)];
    }

    method Verify(name: string, ok: bool, detail: string)
      modifies this
      ensures checks == old(checks) + [Check(name, if ok then Pass else Fail, detail)]
    {
      Record(name, if ok then Pass else Fail, detail);
    }

    /** Nothing recorded goes uncounted. */
    method Count() returns (c: Counts)
      ensures c == Counts(Tally(checks, Pass), Tally(checks, Accepted), Tally(checks, Fail))
      ensures c.pass + c.accepted + c.fail == |checks|
    {
      c := Counts(0, 0, 0);
      for i := 0 to |checks|
        invariant c == Counts(Tally(checks[..i], Pass), Tally(checks[..i], Accepted), Tally(checks[..i], Fail))
        invariant c.pass + c.accepted + c.fail == i
      {
        assert checks[..i + 1][..i] == checks[..i];
        match checks[i].outcome
        case Pass => c := c.(pass := c.pass + 1);
        case Accepted => c := c.(accepted := c.accepted + 1);
        case Fail => c := c.(fail := c.fail + 1);
      }
      assert checks[..|checks|] == checks;
    }

    method IsGreen() returns (green: bool)
      ensures green <==> Green(checks)
    {
      var c := Count();
      green := c.fail == 0 && c.pass > 0;
      TallyIsPresence(checks, Fail);
      TallyIsPresence(checks, Pass);
    }
  }

  /** Something was asserted and nothing went wrong. */
  ghost predicate Green(checks: seq<Check>) {
    && (exists k :: 0 <= k < |checks| && checks[k].outcome == Pass)
    && (forall k :: 0 <= k < |checks| ==> checks[k].outcome != Fail)
  }

  lemma {:induction false} FailIsNeverUndone(checks: seq<Check>, more: seq<Check>, k: nat)
    requires k < |checks| && checks[k].outcome == Fail
    ensures !Green(checks + more)
  {
    assert (checks + more)[k] == checks[k];
  }

  // ---------------------------------------------------------------- one send

  datatype ReceiptType =
    | Unspecified | Unknown | Delivered | SentOut | Sender | Retry | EncRekeyRetry | Read | ReadSelf
    | Played | PlayedSelf | ServerError | Inactive | PeerMsg | HistorySync

  datatype Envelope = Receipt(kind: ReceiptType, ids: seq<string>) | OtherEvent

  datatype Fanout = Fanout(addressed: nat, encrypted: nat, skippedPrimary: bool)

  datatype SendResult = SendResult(key: Option<string>, fanout: Option<Fanout>)

  datatype Refusal = NoId | NoFanout | EncryptedForNone(addressed: nat) | SkippedPhone

  function SentId(r: SendResult): Option<string> {
    if r.key.Some? && r.key.value != "" then r.key else None
  }

  function SendReachedPhone(r: SendResult): Result<string, Refusal> {
    if SentId(r).None? then Err(NoId)
    else if r.fanout.None? then Err(NoFanout)
    else if r.fanout.value.encrypted == 0 then Err(EncryptedForNone(r.fanout.value.addressed))
    else if r.fanout.value.skippedPrimary then Err(SkippedPhone)
    else Ok(SentId(r).value)
  }

  /** Why a result does not count as having reached the phone, the first of these that holds. */
  lemma {:induction false} RefusedExactly(r: SendResult)
    ensures var noId := r.key.None? || r.key.value == "";
            SendReachedPhone(r) ==
              if noId then Err(NoId)
              else if r.fanout.None? then Err(NoFanout)
              else if r.fanout.value.encrypted == 0 then Err(EncryptedForNone(r.fanout.value.addressed))
              else if r.fanout.value.skippedPrimary then Err(SkippedPhone)
              else Ok(r.key.value)
  {
  }

  predicate IsDeliveryReceipt(e: Envelope, id: string) {
    e.Receipt? && e.kind in {Delivered, Read, Played} && id in e.ids
  }

  /** One send as the run saw it. */
  datatype Sent = Sent(name: string, answer: Result<SendResult, string>)

  /** `judge_send_keeping_id`: `found` is what the bounded wait for the receipt returned. */
  method JudgeSendKeepingId(report: Report, s: Sent, found: Option<Envelope>)
      returns (id: Option<string>, passed: bool)
    modifies report
    ensures report.checks == old(report.checks) + [Verdict(s, found)]
    ensures passed <==> Verdict(s, found).outcome == Pass
    ensures id == if s.answer.Ok? && s.answer.value.key.Some? && s.answer.value.key.value != "" then s.answer.value.key else None
    ensures passed ==> id.Some?
  {
    if s.answer.Err? {
      report.Record(s.name, Fail, s.answer.error);
      return None, false;
    }
    id := SentId(s.answer.value);
    var reached := SendReachedPhone(s.answer.value);
    if reached.Err? {
      report.Record(s.name, Fail, Reason(reached.error));
      return id, false;
    }
    passed := found.Some?;
    report.Verify(s.name, passed, reached.value);
  }

  method JudgeSend(report: Report, s: Sent, found: Option<Envelope>) returns (id: Option<string>)
    modifies report
    ensures report.checks == old(report.checks) + [Verdict(s, found)]
    ensures id.Some? <==> Verdict(s, found).outcome == Pass
    ensures id.Some? ==> s.answer.Ok? && id == s.answer.value.key && id.value != ""
  {
    var kept, passed := JudgeSendKeepingId(report, s, found);
    id := if passed then kept else None;
  }

  function Reason(why: Refusal): string {
    match why
    case NoId => "the send result carries no message id"
    case NoFanout => "the send result has no recipient_fanout"
    case EncryptedForNone(_) => "recipient_fanout encrypted for 0 devices"
    case SkippedPhone => "recipient_fanout skipped the recipient's primary phone"
  }

  function Verdict(s: Sent, found: Option<Envelope>): Check {
    if s.answer.Err? then Check(s.name, Fail, s.answer.error)
    else
      match SendReachedPhone(s.answer.value)
      case Err(why) => Check(s.name, Fail, Reason(why))
      case Ok(id) => Check(s.name, if found.Some? then Pass else Fail, id)
  }

  // ---------------------------------------------------------------- a whole run

  /** The fan-out half, in the terms of the send result itself. */
  ghost predicate ReachedPhone(s: Sent) {
    && s.answer.Ok? && s.answer.value.key.Some? && s.answer.value.key.value != ""
    && s.answer.value.fanout.Some?
    && s.answer.value.fanout.value.encrypted > 0 && !s.answer.value.fanout.value.skippedPrimary
  }

  /** Send `i`'s wait is the tap's waiter `i`, and wants a delivery receipt of its id. */
  predicate Wants(sends: seq<Sent>, i: Id, e: Envelope) {
    i < |sends| && sends[i].answer.Ok? && sends[i].answer.value.key.Some?
    && IsDeliveryReceipt(e, sends[i].answer.value.key.value)
  }

  function WantOf(sends: seq<Sent>): (Id, Envelope) -> bool {
    (i: Id, e: Envelope) => Wants(sends, i, e)
  }

  /** What the tap handed to send `i`; nothing if it never waited. */
  function FoundFor(t: Tap<Envelope>, i: Id): Option<Envelope> {
    if i in t.waiters && t.waiters[i].pc.Done? then t.waiters[i].pc.found else None
  }

  /** The checks a run of `judge_send` calls leaves on a fresh report. */
  function RunChecks(sends: seq<Sent>, t: Tap<Envelope>): seq<Check> {
    seq(|sends|, i requires 0 <= i < |sends| => Verdict(sends[i], FoundFor(t, i)))
  }

  method JudgeRun(sends: seq<Sent>, t: Tap<Envelope>) returns (green: bool)
    ensures green <==> Green(RunChecks(sends, t))
  {
    var report := new Report();
    for i := 0 to |sends|
      invariant report.checks == RunChecks(sends, t)[..i]
    {
      var _ := JudgeSend(report, sends[i], FoundFor(t, i));
    }
    assert RunChecks(sends, t)[..|sends|] == RunChecks(sends, t);
    green := report.IsGreen();
  }

  /** A receipt proving delivery of send `i` was among the events its wait saw. */
  ghost predicate ReceiptSeen(sends: seq<Sent>, t: Tap<Envelope>, i: Id)
    requires i < |sends| && ReachedPhone(sends[i])
  {
    && i in t.waiters && t.waiters[i].pc.Done? && t.waiters[i].pc.at <= |t.seen|
    && exists k :: 0 <= k < t.waiters[i].pc.at
                   && t.seen[k].Receipt? && t.seen[k].kind in {Delivered, Read, Played}
                   && sends[i].answer.value.key.value in t.seen[k].ids
  }

  lemma {:induction false} FoundExactlyWhenSeen(sends: seq<Sent>, t: Tap<Envelope>, i: Id)
    requires i < |sends| && ReachedPhone(sends[i]) && i in t.waiters && Truthful(WantOf(sends), t, i)
    ensures FoundFor(t, i).Some? <==> ReceiptSeen(sends, t, i)
  {
    var want := WantOf(sends);
    if FoundFor(t, i).Some? {
      var at := t.waiters[i].pc.at;
      var k :| 0 <= k < at && want(i, t.seen[..at][k]);
      assert t.seen[..at][k] == t.seen[k];
      assert ReceiptSeen(sends, t, i);
    }
    if ReceiptSeen(sends, t, i) {
      var at := t.waiters[i].pc.at;
      var k :| 0 <= k < at && IsDeliveryReceipt(t.seen[k], sends[i].answer.value.key.value);
      assert want(i, t.seen[..at][k]);
    }
  }

  /** Whatever the interleaving of receipts, waits and deadlines: the run is green exactly when it
      sent something and every send reached the phone and was seen delivered. */
  lemma {:induction false} GreenExactlyWhenDelivered(sends: seq<Sent>, events: seq<Event<Envelope>>)
    ensures var t := Run(true, WantOf(sends), events);
            Green(RunChecks(sends, t))
            <==> sends != [] && forall i :: 0 <= i < |sends| ==> ReachedPhone(sends[i]) && ReceiptSeen(sends, t, i)
  {
    var want := WantOf(sends);
    var t := Run(true, want, events);
    RunKeeps(want, events);
    var checks := RunChecks(sends, t);
    forall i | 0 <= i < |sends|
      ensures checks[i].outcome == Pass || checks[i].outcome == Fail
      ensures checks[i].outcome == Pass <==> ReachedPhone(sends[i]) && ReceiptSeen(sends, t, i)
    {
      if ReachedPhone(sends[i]) && i in t.waiters {
        FoundExactlyWhenSeen(sends, t, i);
      }
    }
    if sends != [] && (forall i :: 0 <= i < |sends| ==> ReachedPhone(sends[i]) && ReceiptSeen(sends, t, i)) {
      assert checks[0].outcome == Pass;
    }
  }
}
