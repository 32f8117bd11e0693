// The reconciliation worker: one run over the unknown deliveries, oldest first.
module ReconcileWorker {
  import opened Models
  import opened Outbox
  import opened Protocol

  datatype Report = Report(resolved: nat, notFound: nat, failed: nat, errors: nat, expired: nat)

  datatype Verdict = Expired | NotAnswered | Resolved | NotFound | Otherwise

  function VerdictOn(r: Row, answer: Option<string>, now: int): Verdict {
    if r.updatedAt < now - RECONCILE_MAX_AGE then Expired
    else if !CanAsk(r) || answer.None? then NotAnswered
    else if answer.value == "not_found" then NotFound
    else if answer.value == "sent" || answer.value == "delivered" then Resolved
    else Otherwise
  }

  // What each verdict says of the row and of the answer. "Failed" is what the report calls every answer it does not
  // know, so a row is reported failed without having failed exactly when the provider did not report a failure.
  lemma VerdictShows(r: Row, answer: Option<string>, now: int)
    requires r.status == UnknownDelivery
    ensures var r', v := RunOn(r, answer, now), VerdictOn(r, answer, now);
            && (v.Expired? <==> r.updatedAt < now - 259_200_000_000)
            && match v
               case Expired => r' == r.(status := Failed, failedAt := Some(now), updatedAt := now)
               case NotAnswered => r' == r && (r.sid == None || r.sid == Some("") || answer == None)
               case NotFound =>
                 answer == Some("not_found")
                 && r' == r.(status := Pending, retryCount := r.retryCount + 1, updatedAt := now)
               case Resolved =>
                 || (answer == Some("sent") && r'.status == Sent && r'.sentAt.Some?)
                 || (answer == Some("delivered")
                     && r' == r.(status := Delivered, deliveredAt := Some(now), updatedAt := now))
               case Otherwise =>
                 && answer.Some? && answer.value !in {"not_found", "sent", "delivered"}
                 && r'.updatedAt == now && r'.retryCount == r.retryCount
                 && (r'.status != Failed <==> answer.value !in {"failed", "undelivered", "rejected"})
                 && (r'.status == Sent <==> answer.value in {"queued", "accepted"})
  {}

  function Reported(t: Report, v: Verdict): Report {
    match v
    case Expired => t.(expired := t.expired + 1)
    case NotAnswered => t.(errors := t.errors + 1)
    case Resolved => t.(resolved := t.resolved + 1)
    case NotFound => t.(notFound := t.notFound + 1)
    case Otherwise => t.(failed := t.failed + 1)
  }

  function ReportOf(verdicts: seq<Verdict>, n: nat): Report
    requires n <= |verdicts|
  {
    if n == 0 then Report(0, 0, 0, 0, 0) else Reported(ReportOf(verdicts, n - 1), verdicts[n - 1])
  }

  // Each counter says how often its verdict was given.
  lemma {:induction false} ReportCounts(verdicts: seq<Verdict>, n: nat)
    requires n <= |verdicts|
    ensures var t, given := ReportOf(verdicts, n), multiset(verdicts[..n]);
            && t.resolved == given[Resolved] && t.notFound == given[NotFound] && t.failed == given[Otherwise]
            && t.errors == given[NotAnswered] && t.expired == given[Expired]
  {
    if n > 0 {
      ReportCounts(verdicts, n - 1);
      assert verdicts[..n] == verdicts[..n - 1] + [verdicts[n - 1]];
    }
  }

  // The five counters of a run sum to the size of its batch.
  lemma {:induction false} ReportAddsUp(verdicts: seq<Verdict>, n: nat)
    requires n <= |verdicts|
    ensures var t := ReportOf(verdicts, n); t.resolved + t.notFound + t.failed + t.errors + t.expired == n
  {
    if n > 0 {
      ReportAddsUp(verdicts, n - 1);
    }
  }

  ghost predicate IsVerdict(v: Verdict, r: Row, answer: Option<string>, now: int) {
    v == VerdictOn(r, answer, now)
  }

  ghost predicate IsRun(m: OutboundMessage, r: Row, answer: Option<string>, now: int)
    reads m
  {
    HasRow(m, RunOn(r, answer, now))
  }

  function VerdictsOn(rows: seq<Row>, answers: seq<Option<string>>, now: int): seq<Verdict>
    requires |rows| == |answers|
  {
    seq(|rows|, i requires 0 <= i < |rows| => VerdictOn(rows[i], answers[i], now))
  }

  method ReconcileOne(message: OutboundMessage, ghost row: Row, answer: Option<string>, now: int)
      returns (verdict: Verdict)
    requires HasRow(message, row)
    modifies message
    ensures IsRun(message, row, answer, now) && IsVerdict(verdict, row, answer, now)
  {
    if message.updatedAt < now - RECONCILE_MAX_AGE {
      message.status, message.failedAt, message.updatedAt := Failed, Some(now), now;
      return Expired;
    }
    if message.sid == None || message.sid == Some("") {
      return NotAnswered;
    }
    if answer == None {
      return NotAnswered;
    }
    message.ReconcileUnknownDelivery(answer.value, now);
    if answer.value == "not_found" {
      return NotFound;
    } else if answer.value == "sent" || answer.value == "delivered" {
      return Resolved;
    }
    return Otherwise;
  }

  method ReconcileNext(message: OutboundMessage, ghost row: Row, answer: Option<string>, now: int,
                       ghost verdicts: seq<Verdict>, ghost i: nat, before: Report)
      returns (report: Report)
    requires HasRow(message, row) && i < |verdicts| && IsVerdict(verdicts[i], row, answer, now)
    requires before == ReportOf(verdicts, i)
    modifies message
    ensures IsRun(message, row, answer, now) && report == ReportOf(verdicts, i + 1)
  {
    var verdict := ReconcileOne(message, row, answer, now);
    report := match verdict
      case Expired => before.(expired := before.expired + 1)
      case NotAnswered => before.(errors := before.errors + 1)
      case Resolved => before.(resolved := before.resolved + 1)
      case NotFound => before.(notFound := before.notFound + 1)
      case Otherwise => before.(failed := before.failed + 1);
  }

  method ReconcileUnknownDeliveries(messages: seq<OutboundMessage>, ghost rows: seq<Row>,
                                    answers: seq<Option<string>>, now: int, ghost verdicts: seq<Verdict>)
      returns (report: Report)
    requires |verdicts| == |answers| == |messages| && Distinct(messages) && HaveRows(messages, rows)
    requires forall i {:trigger IsVerdict(verdicts[i], rows[i], answers[i], now)} ::
      0 <= i < |rows| ==> IsVerdict(verdicts[i], rows[i], answers[i], now)
    modifies messages
    ensures forall i :: 0 <= i < |messages| ==> IsRun(messages[i], rows[i], answers[i], now)
    ensures report == ReportOf(verdicts, |messages|)
  {
    report := Report(0, 0, 0, 0, 0);
    for i := 0 to |messages|
      invariant forall j :: 0 <= j < i ==> IsRun(messages[j], rows[j], answers[j], now)
      invariant forall j :: i <= j < |messages| ==> HasRow(messages[j], rows[j])
      invariant report == ReportOf(verdicts, i)
    {
      report := ReconcileNext(messages[i], rows[i], answers[i], now, verdicts, i, report);
    }
  }

  lemma StepRuns(c: Config, s: State, ids: seq<nat>, heard: map<nat, string>, id: nat)
    requires Enabled(s, Reconcile(ids, heard)) && id in ids && id in s.rows
    ensures var t := Next(c, s, Reconcile(ids, heard));
            id in t.rows && t.rows[id] == RunOn(s.rows[id], if id in heard then Some(heard[id]) else None, s.now)
  {}

  // A whole run of the task: the rows it was given end as the protocol's reconciliation step leaves them, and its
  // counters say how often each verdict was given on them, so they sum to their number.
  method RunTask(c: Config, ghost s: State, ghost ids: seq<nat>, messages: seq<OutboundMessage>,
                 answers: seq<Option<string>>, ghost heard: map<nat, string>, now: int)
      returns (report: Report)
    requires Enabled(s, Reconcile(ids, heard)) && now == s.now
    requires |ids| == |messages| == |answers| && Distinct(messages)
    requires forall i :: 0 <= i < |ids| ==> ids[i] in s.rows && HasRow(messages[i], s.rows[ids[i]])
    requires forall i :: 0 <= i < |ids| ==> answers[i] == if ids[i] in heard then Some(heard[ids[i]]) else None
    modifies messages
    ensures forall i :: 0 <= i < |ids| ==>
              ids[i] in s.rows && HasRow(messages[i], Next(c, s, Reconcile(ids, heard)).rows[ids[i]])
    ensures report == ReportOf(VerdictsOn(RowsAt(s.rows, ids), answers, now), |messages|)
    ensures report.resolved + report.notFound + report.failed + report.errors + report.expired == |messages|
  {
    ghost var rows := RowsAt(s.rows, ids);
    ghost var verdicts := VerdictsOn(rows, answers, now);
    report := ReconcileUnknownDeliveries(messages, rows, answers, now, verdicts);
    ReportAddsUp(verdicts, |messages|);
    forall i | 0 <= i < |ids| ensures HasRow(messages[i], Next(c, s, Reconcile(ids, heard)).rows[ids[i]]) {
      assert IsRun(messages[i], rows[i], answers[i], now);
      StepRuns(c, s, ids, heard, ids[i]);
    }
  }
}
