// One outbox row and everything that may be written to it.
module Outbox {
  import opened Models
  import opened QuietHours

  datatype Row = Row(
    key: string,
    invoice: Option<int>,
    status: MessageStatus,
    retryCount: nat,
    maxRetries: nat,
    sid: Option<string>,  // the provider's id of the last accepted attempt
    scheduledAt: Option<int>,
    nextRetryAt: Option<int>,
    sentAt: Option<int>,
    deliveredAt: Option<int>,
    failedAt: Option<int>,
    createdAt: int,
    updatedAt: int,
    deferredAt: Option<int>)  // bookkeeping, not a column: when quiet hours last put the row back

  datatype InvalidTransition = InvalidTransition(current: MessageStatus, wanted: MessageStatus)

  function NewRow(key: string, invoice: Option<int>, maxRetries: nat, scheduledAt: Option<int>, now: int): Row {
    Row(key, invoice, Pending, 0, maxRetries, None, scheduledAt, None, None, None, None, now, now, None)
  }

  // ---- the sender's writes ----

  predicate Pollable(r: Row, now: int) {
    r.status == Pending && r.scheduledAt.Some? && r.scheduledAt.value <= now && r.retryCount < r.maxRetries
  }

  function Claimed(r: Row, now: int): Row {
    r.(status := Sending, updatedAt := now)
  }

  function PutBack(r: Row, next: int, now: int): Row {
    r.(status := Pending, scheduledAt := Some(next), updatedAt := now, deferredAt := Some(now))
  }

  predicate MayBecome(current: MessageStatus, wanted: MessageStatus) {
    match current
    case Pending => wanted == Sending
    case Sending => wanted in {Sent, Failed, UnknownDelivery}
    case Failed => wanted == Pending
    case UnknownDelivery => wanted in {Sent, Failed, Pending}
    case Sent => false
    case Delivered => false
    case Suppressed => false
  }

  function BackoffMinutes(retryCount: nat): int {
    if retryCount <= 1 then 1 else if retryCount == 2 then 5 else 15
  }

  function Transitioned(r: Row, wanted: MessageStatus, sid: string, now: int): Result<Row, InvalidTransition> {
    if !MayBecome(r.status, wanted) then Err(InvalidTransition(r.status, wanted)) else
    var moved := r.(status := wanted, updatedAt := now);
    Ok(
      if wanted == Sent then moved.(sentAt := Some(now), sid := if sid == "" then r.sid else Some(sid))
      else if wanted == Failed then moved.(failedAt := Some(now))
      else if wanted == Pending && r.status == Failed then
        moved.(retryCount := r.retryCount + 1, nextRetryAt := Some(now + BackoffMinutes(r.retryCount + 1) * MINUTE))
      else moved)
  }

  // ---- writes by others ----

  function Lower(s: string): string {
    seq(|s|, i requires 0 <= i < |s| =>
      if 'A' <= s[i] <= 'Z' then ('a' as int + (s[i] as int - 'A' as int)) as char else s[i])
  }

  // What a provider's word for a delivery means here.
  function MeaningOf(providerStatus: string): Option<MessageStatus> {
    if providerStatus in {"sent", "queued", "accepted"} then Some(Sent)
    else if providerStatus == "delivered" then Some(Delivered)
    else if providerStatus in {"failed", "undelivered", "rejected"} then Some(Failed)
    else None
  }

  function Marked(r: Row, status: MessageStatus, now: int): Row {
    var moved := r.(status := status, updatedAt := now);
    if status == Sent then moved.(sentAt := if r.sentAt.Some? then r.sentAt else Some(now))
    else if status == Delivered then moved.(deliveredAt := Some(now))
    else if status == Failed then moved.(failedAt := Some(now))
    else moved
  }

  // A delivery callback overrides whatever the row says.
  function CalledBack(r: Row, providerStatus: string, now: int): Row {
    var meaning := MeaningOf(Lower(providerStatus));
    if meaning.Some? then Marked(r, meaning.value, now) else r
  }

  // The provider's answer about an unknown delivery; an answer without a meaning still counts as a touch.
  function Reconciled(r: Row, providerStatus: string, now: int): Row {
    if providerStatus == "not_found" then
      r.(status := Pending, retryCount := r.retryCount + 1, updatedAt := now)
    else
      var meaning := MeaningOf(providerStatus);
      if meaning.Some? then Marked(r, meaning.value, now) else r.(updatedAt := now)
  }

  // The provider can only be asked about an attempt it accepted.
  predicate CanAsk(r: Row) {
    r.sid.Some? && r.sid.value != ""
  }

  const RECONCILE_AFTER: int := 10 * MINUTE
  const RECONCILE_MAX_AGE: int := 72 * HOUR

  // One row of a reconciliation run. No answer stands for a query that raised.
  function RunOn(r: Row, answer: Option<string>, now: int): Row {
    if r.updatedAt < now - RECONCILE_MAX_AGE then Marked(r, Failed, now)
    else if !CanAsk(r) || answer.None? then r
    else Reconciled(r, answer.value, now)
  }

  function SuppressedAsPaid(r: Row, now: int): Row {
    r.(status := Suppressed, updatedAt := now)
  }

  // ---- what the writes come to, in the outside world's words ----

  lemma NewRowIs(key: string, invoice: Option<int>, maxRetries: nat, at: Option<int>, now: int)
    ensures var r := NewRow(key, invoice, maxRetries, at, now);
            && r.key == key && r.invoice == invoice && r.status == Pending && r.retryCount == 0
            && r.maxRetries == maxRetries && r.sid == None && r.scheduledAt == at && r.nextRetryAt == None
            && r.createdAt == r.updatedAt == now
            && (Pollable(r, now) <==> at.Some? && at.value <= now && maxRetries > 0)
  {}

  // Lower case touches the 26 capitals and nothing else.
  lemma LowerIs(s: string)
    ensures |Lower(s)| == |s|
    ensures forall i :: 0 <= i < |s| ==>
              Lower(s)[i] == if 'A' <= s[i] <= 'Z' then (s[i] as int + 32) as char else s[i]
    ensures (forall i :: 0 <= i < |s| ==> !('A' <= s[i] <= 'Z')) ==> Lower(s) == s
  {}

  predicate ReportsSent(word: string) {
    word == "sent" || word == "queued" || word == "accepted"
  }

  predicate ReportsFailed(word: string) {
    word == "failed" || word == "undelivered" || word == "rejected"
  }

  // What a row becomes when the provider is said to have sent, delivered or failed it.
  lemma MarkedIs(r: Row, now: int)
    ensures Marked(r, Sent, now)
            == r.(status := Sent, sentAt := if r.sentAt.Some? then r.sentAt else Some(now), updatedAt := now)
    ensures Marked(r, Delivered, now) == r.(status := Delivered, deliveredAt := Some(now), updatedAt := now)
    ensures Marked(r, Failed, now) == r.(status := Failed, failedAt := Some(now), updatedAt := now)
  {}

  lemma MeaningIs(word: string)
    ensures MeaningOf(word) == if word == "delivered" then Some(Delivered)
                               else if ReportsSent(word) then Some(Sent)
                               else if ReportsFailed(word) then Some(Failed) else None
  {}

  // "delivered" and its instant, the three words for sent with the first such instant kept, the three words for failed
  // with their instant.
  ghost predicate EndsAsReported(r: Row, r': Row, word: string, now: int) {
    && (word == "delivered" ==> r' == r.(status := Delivered, deliveredAt := Some(now), updatedAt := now))
    && (ReportsSent(word) ==>
         r' == r.(status := Sent, sentAt := if r.sentAt.Some? then r.sentAt else Some(now), updatedAt := now))
    && (ReportsFailed(word) ==> r' == r.(status := Failed, failedAt := Some(now), updatedAt := now))
  }

  predicate Reports(word: string) {
    word == "delivered" || ReportsSent(word) || ReportsFailed(word)
  }

  // A callback: what its word reports, whatever its case; any other word leaves the row alone.
  ghost predicate EndsAsCalledBack(r: Row, r': Row, word: string, now: int) {
    EndsAsReported(r, r', Lower(word), now) && (!Reports(Lower(word)) ==> r' == r)
  }

  lemma CallbackEndsAs(r: Row, word: string, now: int)
    ensures EndsAsCalledBack(r, CalledBack(r, word, now), word, now)
  {
    MarkedIs(r, now);
    MeaningIs(Lower(word));
  }

  // A reconciliation's answer: what its word reports, as it is spelled; "not_found" offers the row again and counts a
  // retry, and any other answer only refreshes it.
  ghost predicate EndsAsAnswered(r: Row, r': Row, word: string, now: int) {
    && EndsAsReported(r, r', word, now)
    && (word == "not_found" ==> r' == r.(status := Pending, retryCount := r.retryCount + 1, updatedAt := now))
    && (!Reports(word) && word != "not_found" ==> r' == r.(updatedAt := now))
  }

  lemma AnswerEndsAs(r: Row, word: string, now: int)
    ensures EndsAsAnswered(r, Reconciled(r, word, now), word, now)
  {
    MarkedIs(r, now);
    MeaningIs(word);
  }

  // A reconciliation run gives a row up once its last touch is over 72 hours ago. Before, the row ends as the answer
  // says, if there is an id to ask with and an answer came; else it stays as it is.
  ghost predicate EndsAsRun(r: Row, r': Row, answer: Option<string>, now: int) {
    if r.updatedAt < now - 259_200_000_000 then r' == r.(status := Failed, failedAt := Some(now), updatedAt := now)
    else if r.sid == None || r.sid == Some("") || answer == None then r' == r
    else EndsAsAnswered(r, r', answer.value, now)
  }

  lemma RunEndsAs(r: Row, answer: Option<string>, now: int)
    ensures EndsAsRun(r, RunOn(r, answer, now), answer, now)
  {
    MarkedIs(r, now);
    if answer.Some? {
      AnswerEndsAs(r, answer.value, now);
    }
  }

  // The table, entry by entry.
  lemma MayBecomeIff(current: MessageStatus, wanted: MessageStatus)
    ensures MayBecome(current, wanted) <==> (current, wanted) in {
              (Pending, Sending), (Sending, Sent), (Sending, Failed), (Sending, UnknownDelivery), (Failed, Pending),
              (UnknownDelivery, Sent), (UnknownDelivery, Failed), (UnknownDelivery, Pending)}
  {}

  // A retry of a failed row: one more counted, and a backoff of one, five, and from then on fifteen minutes.
  lemma RetryEndsAs(r: Row, now: int)
    requires r.status == Failed
    ensures var r' := Transitioned(r, Pending, "", now);
            && r'.Ok? && r'.value == r.(status := Pending, retryCount := r.retryCount + 1, updatedAt := now,
                                        nextRetryAt := r'.value.nextRetryAt)
            && r'.value.nextRetryAt == Some(now + if r.retryCount == 0 then 60_000_000
                                                  else if r.retryCount == 1 then 300_000_000 else 900_000_000)
  {}

  // ---- what every write respects ----

  // How often a row at rest may have been submitted, batches that aborted aside.
  function Allowance(r: Row): nat {
    r.retryCount + if r.status == Pending then 0 else 1
  }

  // A write outside a sender's batch: the row keeps its identity, its schedule and its allowance.
  ghost predicate Follows(r: Row, r': Row, now: int) {
    || r' == r
    || (&& r'.key == r.key && r'.invoice == r.invoice && r'.maxRetries == r.maxRetries && r'.sid == r.sid
        && r'.createdAt == r.createdAt && r'.updatedAt == now
        && r'.scheduledAt == r.scheduledAt && r'.deferredAt == r.deferredAt
        && Allowance(r') >= Allowance(r))
  }

  lemma CallbackFollows(r: Row, providerStatus: string, now: int)
    ensures Follows(r, CalledBack(r, providerStatus, now), now)
  {}

  lemma ReconciliationFollows(r: Row, answer: Option<string>, now: int)
    requires r.status == UnknownDelivery
    ensures Follows(r, RunOn(r, answer, now), now)
  {}

  lemma SuppressionFollows(r: Row, now: int)
    requires r.status == Pending
    ensures Follows(r, SuppressedAsPaid(r, now), now)
  {}

  lemma RetryFollows(r: Row, now: int)
    requires r.status == Failed
    ensures Follows(r, Transitioned(r, Pending, "", now).value, now)
  {}

  // The transition table also lets a row go from UnknownDelivery to Pending by itself, without counting a retry; that
  // write costs the row its allowance, and of all the table's moves by rows at rest it is the only one that does.
  lemma UncountedRetryIff(r: Row, wanted: MessageStatus, now: int)
    requires r.status != Pending && r.status != Sending && MayBecome(r.status, wanted)
    ensures Allowance(Transitioned(r, wanted, "", now).value) < Allowance(r)
            <==> r.status == UnknownDelivery && wanted == Pending
  {}

  // A failed row that is retried the moment it is due may be polled at once, although its backoff lasts a minute.
  lemma BackoffDoesNotDelay(key: string, now: int)
    ensures var failed := NewRow(key, None, 3, Some(now), now).(status := Failed);
            var retried := Transitioned(failed, Pending, "", now).value;
            retried.nextRetryAt == Some(now + MINUTE) && Pollable(retried, now)
  {}

  // Hearing a callback's word again, later or at once, leaves status and retries as they are. But unless it means
  // nothing, it moves the row's timestamps to the later instant.
  lemma RepeatedCallbackIff(r: Row, word: string, now: int, later: int)
    requires now <= later
    ensures var once := CalledBack(r, word, now);
            var twice := CalledBack(once, word, later);
            && twice.status == once.status && twice.retryCount == once.retryCount
            && (twice == once <==> MeaningOf(Lower(word)).None? || now == later)
  {}

  // Hearing a reconciliation's answer again leaves status and retries as they are except for "not_found", which counts
  // a retry each time. Every answer, also one that means nothing, moves the row's timestamps to the later instant.
  lemma RepeatedWordIff(r: Row, word: string, now: int, later: int)
    requires now <= later
    ensures var once := Reconciled(r, word, now);
            var twice := Reconciled(once, word, later);
            && (twice.status == once.status && twice.retryCount == once.retryCount <==> word != "not_found")
            && (twice == once <==> word != "not_found" && now == later)
  {}

  // ---- the row as an object ----

  class OutboundMessage {
    const key: string
    const invoice: Option<int>
    const maxRetries: nat
    const createdAt: int
    var status: MessageStatus
    var retryCount: nat
    var sid: Option<string>
    var scheduledAt: Option<int>
    var nextRetryAt: Option<int>
    var sentAt: Option<int>
    var deliveredAt: Option<int>
    var failedAt: Option<int>
    var updatedAt: int
    var deferredAt: Option<int>  // bookkeeping, not a column

    constructor (key: string, invoice: Option<int>, maxRetries: nat, scheduledAt: Option<int>, now: int)
      ensures Snapshot() == NewRow(key, invoice, maxRetries, scheduledAt, now)
    {
      this.key, this.invoice, this.maxRetries, createdAt := key, invoice, maxRetries, now;
      status, retryCount, sid := Pending, 0, None;
      this.scheduledAt, nextRetryAt, sentAt, deliveredAt, failedAt := scheduledAt, None, None, None, None;
      updatedAt, deferredAt := now, None;
    }

    // A row read from the table.
    constructor Load(r: Row)
      ensures Snapshot() == r
    {
      key, invoice, maxRetries, createdAt := r.key, r.invoice, r.maxRetries, r.createdAt;
      status, retryCount, sid := r.status, r.retryCount, r.sid;
      scheduledAt, nextRetryAt := r.scheduledAt, r.nextRetryAt;
      sentAt, deliveredAt, failedAt := r.sentAt, r.deliveredAt, r.failedAt;
      updatedAt, deferredAt := r.updatedAt, r.deferredAt;
    }

    function Snapshot(): Row
      reads this
    {
      Row(key, invoice, status, retryCount, maxRetries, sid, scheduledAt, nextRetryAt,
          sentAt, deliveredAt, failedAt, createdAt, updatedAt, deferredAt)
    }

    method ClaimForSending(now: int) returns (claimed: bool)
      modifies this
      ensures claimed <==> old(status) == Pending
      ensures Snapshot() == if claimed then Claimed(old(Snapshot()), now) else old(Snapshot())
    {
      if status != Pending {
        return false;
      }
      status, updatedAt := Sending, now;
      return true;
    }

    // No entry of the table leads to Delivered, so the branch that would stamp deliveredAt is not here.
    method TransitionStatus(wanted: MessageStatus, providerMessageId: string, now: int)
        returns (r: Result<(), InvalidTransition>)
      modifies this
      ensures match Transitioned(old(Snapshot()), wanted, providerMessageId, now)
              case Ok(row) => r == Ok(()) && Snapshot() == row
              case Err(e) => r == Err(e) && Snapshot() == old(Snapshot())
    {
      var current := status;
      if !MayBecome(current, wanted) {
        return Err(InvalidTransition(current, wanted));
      }
      status, updatedAt := wanted, now;
      if wanted == Sent {
        sentAt := Some(now);
        if providerMessageId != "" {
          sid := Some(providerMessageId);
        }
      } else if wanted == Failed {
        failedAt := Some(now);
      } else if wanted == Pending && current == Failed {
        retryCount := retryCount + 1;
        nextRetryAt := Some(now + BackoffMinutes(retryCount) * MINUTE);
      }
      return Ok(());
    }

    // Puts the row back when the moment is quiet.
    method DeferIfQuietHours(w: Window, offset: int, now: int) returns (deferred: bool)
      modifies this`scheduledAt
      ensures deferred <==> IsWithinQuietHours(w, now, offset)
      ensures scheduledAt == if deferred then Some(NextAllowedSendTime(w, now, offset)) else old(scheduledAt)
      ensures deferred ==> now < scheduledAt.value && !IsWithinQuietHours(w, scheduledAt.value, offset)
    {
      if !IsWithinQuietHours(w, now, offset) {
        return false;
      }
      NextAllowedIsLeast(w, now, offset);
      scheduledAt := Some(NextAllowedSendTime(w, now, offset));
      return true;
    }

    method ProcessDeliveryCallback(providerStatus: string, now: int)
      modifies this
      ensures Snapshot() == CalledBack(old(Snapshot()), providerStatus, now)
    {
      var meaning := MeaningOf(Lower(providerStatus));
      if meaning.Some? {
        Mark(meaning.value, now);
      }
    }

    method ReconcileUnknownDelivery(providerStatus: string, now: int)
      modifies this
      ensures Snapshot() == Reconciled(old(Snapshot()), providerStatus, now)
    {
      if providerStatus == "not_found" {
        status, retryCount := Pending, retryCount + 1;
      } else {
        var meaning := MeaningOf(providerStatus);
        if meaning.Some? {
          Mark(meaning.value, now);
        }
      }
      updatedAt := now;
    }

    method Mark(newStatus: MessageStatus, now: int)
      modifies this
      ensures Snapshot() == Marked(old(Snapshot()), newStatus, now)
    {
      status, updatedAt := newStatus, now;
      if newStatus == Sent {
        if sentAt.None? {
          sentAt := Some(now);
        }
      } else if newStatus == Delivered {
        deliveredAt := Some(now);
      } else if newStatus == Failed {
        failedAt := Some(now);
      }
    }
  }

  // ---- several rows ----

  function RowsAt(rows: map<nat, Row>, ids: seq<nat>): seq<Row>
    requires forall id :: id in ids ==> id in rows
  {
    seq(|ids|, i requires 0 <= i < |ids| => rows[ids[i]])
  }

  ghost predicate HasRow(m: OutboundMessage, r: Row)
    reads m
  {
    m.Snapshot() == r
  }

  ghost predicate HaveRows(messages: seq<OutboundMessage>, rows: seq<Row>)
    reads messages
  {
    |rows| == |messages| && forall i :: 0 <= i < |messages| ==> HasRow(messages[i], rows[i])
  }
}
