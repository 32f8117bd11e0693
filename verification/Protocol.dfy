// The outbox protocol: one database, any number of sender workers, and everyone else who writes to the outbox.
// A worker polls a batch, which locks its rows, works through it on its own uncommitted view, and commits once at the
// end; an abort rolls the view back, but not the texts that were handed to the provider meanwhile.
module Protocol {
  import opened Models
  import opened QuietHours
  import opened Outbox

  // The policy in force and the school's offset from UTC.
  datatype Config = Config(window: Window, offset: int)

  datatype Birth = Birth(key: string, at: int, maxRetries: nat)

  // A claimed row on its way to the provider, and when the quiet-hours test looked at the clock.
  datatype Flight = Flight(id: nat, sampledAt: int, schoolFound: bool)

  // An open sender transaction: the view holds exactly the rows it has locked.
  datatype Batch = Batch(
    todo: seq<nat>, canSend: bool, view: map<nat, Row>, flight: Option<Flight>, submitted: set<nat>)

  // born, ended, submits and aborted are bookkeeping: every row ever inserted, how the purged ones ended, how often
  // each was handed to the provider, and how many aborted batches had done so.
  datatype State = State(
    now: int,
    rows: map<nat, Row>,
    nextId: nat,
    batches: map<int, Batch>,
    callbackEvents: set<string>,
    deadLetters: map<nat, string>,
    born: map<nat, Birth>,
    ended: map<nat, MessageStatus>,
    submits: multiset<nat>,
    aborted: multiset<nat>)

  function Initial(now: int): State {
    State(now, map[], 0, map[], {}, map[], map[], map[], multiset{}, multiset{})
  }

  datatype Outcome = Accepted(sid: string) | Ambiguous | Refused

  datatype Step =
    | Tick(elapsed: nat)
    | Insert(key: string, invoice: Option<int>, maxRetries: nat, scheduledAt: Option<int>)
    | Poll(worker: int, ids: seq<nat>, limit: nat, canSend: bool)
    | Skip(worker: int)
    | Claim(worker: int, guardianFound: bool, schoolFound: bool)
    | Raise(worker: int)
    | Submit(worker: int, outcome: Outcome, recorded: bool)
    | Commit(worker: int)
    | Abort(worker: int)
    | Retry(id: nat)
    | Reconcile(ids: seq<nat>, answers: map<nat, string>)
    | Callback(id: nat, event: string, providerStatus: string)
    | ForgetCallbacks(events: set<string>)
    | Suppress(paidInvoice: int)
    | MoveToDeadLetter(id: nat, letter: nat)
    | ReplayDeadLetter(letter: nat, stamp: string)
    | Purge(scope: set<nat>)

  // ---- queries ----

  predicate Unlocked(s: State, id: nat) {
    forall w :: w in s.batches ==> id !in s.batches[w].view
  }

  // An answer to: the candidates ordered by an instant, at most limit of them.
  ghost predicate IsSelection(ids: seq<nat>, candidates: map<nat, int>, limit: nat) {
    && |ids| == Min(limit, |candidates|)
    && (forall i :: 0 <= i < |ids| ==> ids[i] in candidates)
    && (forall i, j :: 0 <= i < j < |ids| ==> ids[i] != ids[j] && candidates[ids[i]] <= candidates[ids[j]])
    && (forall id, i :: id in candidates && id !in ids && 0 <= i < |ids| ==> candidates[ids[i]] <= candidates[id])
  }

  function Due(s: State): map<nat, int> {
    map id | id in s.rows && Pollable(s.rows[id], s.now) && Unlocked(s, id) :: s.rows[id].scheduledAt.value
  }

  function Unresolved(s: State): map<nat, int> {
    map id | id in s.rows && s.rows[id].status == UnknownDelivery && s.rows[id].updatedAt <= s.now - RECONCILE_AFTER
      :: s.rows[id].updatedAt
  }

  const RECONCILE_LIMIT: nat := 100

  predicate Purgeable(r: Row, now: int) {
    || (r.status in {Sent, Delivered} && r.updatedAt < now - 90 * DAY)
    || (r.status == Failed && r.updatedAt < now - 30 * DAY)
  }

  predicate KeyInUse(s: State, key: string) {
    exists id :: id in s.rows && s.rows[id].key == key
  }

  // ---- steps ----

  predicate Working(s: State, w: int) {
    w in s.batches && s.batches[w].flight.None? && s.batches[w].todo != [] && s.batches[w].todo[0] in s.batches[w].view
  }

  predicate Flying(s: State, w: int) {
    w in s.batches && s.batches[w].flight.Some? && s.batches[w].flight.value.id in s.batches[w].view
  }

  ghost predicate Enabled(s: State, step: Step) {
    match step
    case Tick(_) => true
    case Insert(_, _, _, _) => true
    case Poll(w, ids, limit, _) => w !in s.batches && ids != [] && IsSelection(ids, Due(s), limit)
    case Skip(w) => Working(s, w) && !s.batches[w].canSend
    case Claim(w, _, _) => Working(s, w) && s.batches[w].canSend
    case Raise(w) => Flying(s, w)
    case Submit(w, _, _) => Flying(s, w)
    case Commit(w) => w in s.batches && s.batches[w].flight.None? && s.batches[w].todo == []
    case Abort(w) => w in s.batches
    case Retry(id) => id in s.rows && Unlocked(s, id) && s.rows[id].status == Failed
    case Reconcile(ids, _) => IsSelection(ids, Unresolved(s), RECONCILE_LIMIT)
    case Callback(id, _, _) => id in s.rows && Unlocked(s, id)
    case ForgetCallbacks(_) => true
    case Suppress(invoice) =>
      forall id :: id in s.rows && s.rows[id].status == Pending && s.rows[id].invoice == Some(invoice) ==>
        Unlocked(s, id)
    case MoveToDeadLetter(id, letter) => id in s.rows && letter !in s.deadLetters
    case ReplayDeadLetter(letter, _) => letter in s.deadLetters
    case Purge(_) => true
  }

  // A key already in the table is silently left alone.
  function Inserted(s: State, key: string, invoice: Option<int>, maxRetries: nat, scheduledAt: Option<int>): State {
    if KeyInUse(s, key) then s else
    s.(rows := s.rows[s.nextId := NewRow(key, invoice, maxRetries, scheduledAt, s.now)],
       born := s.born[s.nextId := Birth(key, s.now, maxRetries)],
       nextId := s.nextId + 1)
  }

  function Rest(b: Batch): seq<nat> {
    if b.todo == [] then [] else b.todo[1..]
  }

  // What the sender makes of a row between claiming it and sending: the row, and whether it goes on to the provider.
  function AfterClaim(c: Config, r: Row, guardianFound: bool, schoolFound: bool, now: int): (Row, bool) {
    if r.status != Pending then (r, false)
    else if !guardianFound then (Marked(Claimed(r, now), Failed, now), false)
    else if schoolFound && IsWithinQuietHours(c.window, now, c.offset) then
      (PutBack(Claimed(r, now), NextAllowedSendTime(c.window, now, c.offset), now), false)
    else (Claimed(r, now), true)
  }

  function AfterSubmit(r: Row, outcome: Outcome, now: int): Row {
    var wanted := match outcome case Accepted(_) => Sent case Ambiguous => UnknownDelivery case Refused => Failed;
    match Transitioned(r, wanted, if outcome.Accepted? then outcome.sid else "", now)
    case Ok(r') => r'
    case Err(_) => r
  }

  function ClaimedIn(c: Config, b: Batch, guardianFound: bool, schoolFound: bool, now: int): Batch
    requires b.todo != [] && b.todo[0] in b.view
  {
    var id := b.todo[0];
    var (r, goes) := AfterClaim(c, b.view[id], guardianFound, schoolFound, now);
    b.(todo := Rest(b), view := b.view[id := r], flight := if goes then Some(Flight(id, now, schoolFound)) else None)
  }

  // An outcome that could not be recorded leaves the row as it was claimed.
  function SubmittedIn(b: Batch, outcome: Outcome, recorded: bool, now: int): Batch
    requires b.flight.Some? && b.flight.value.id in b.view
  {
    var id := b.flight.value.id;
    b.(view := if recorded then b.view[id := AfterSubmit(b.view[id], outcome, now)] else b.view,
       flight := None, submitted := b.submitted + {id})
  }

  function Next(c: Config, s: State, step: Step): State
    requires Enabled(s, step)
  {
    match step
    case Tick(elapsed) => s.(now := s.now + elapsed)
    case Insert(key, invoice, maxRetries, scheduledAt) => Inserted(s, key, invoice, maxRetries, scheduledAt)
    case Poll(w, ids, _, canSend) =>
      s.(batches := s.batches[w := Batch(ids, canSend, map id | id in ids && id in s.rows :: s.rows[id], None, {})])
    case Skip(w) => s.(batches := s.batches[w := s.batches[w].(todo := Rest(s.batches[w]))])
    case Claim(w, guardianFound, schoolFound) =>
      s.(batches := s.batches[w := ClaimedIn(c, s.batches[w], guardianFound, schoolFound, s.now)])
    case Raise(w) => s.(batches := s.batches[w := s.batches[w].(flight := None)])
    case Submit(w, outcome, recorded) =>
      s.(batches := s.batches[w := SubmittedIn(s.batches[w], outcome, recorded, s.now)],
         submits := s.submits + multiset{s.batches[w].flight.value.id})
    case Commit(w) => s.(rows := s.rows + s.batches[w].view, batches := s.batches - {w})
    case Abort(w) => s.(batches := s.batches - {w}, aborted := s.aborted + multiset(s.batches[w].submitted))
    case Retry(id) => s.(rows := s.rows[id := Transitioned(s.rows[id], Pending, "", s.now).value])
    case Reconcile(ids, answers) =>
      s.(rows := map id | id in s.rows ::
           if id in ids then RunOn(s.rows[id], if id in answers then Some(answers[id]) else None, s.now)
           else s.rows[id])
    case Callback(id, event, providerStatus) =>
      if event in s.callbackEvents then s
      else s.(rows := s.rows[id := CalledBack(s.rows[id], providerStatus, s.now)],
              callbackEvents := s.callbackEvents + {event})
    case ForgetCallbacks(events) => s.(callbackEvents := s.callbackEvents - events)
    case Suppress(invoice) =>
      s.(rows := map id | id in s.rows ::
           if s.rows[id].status == Pending && s.rows[id].invoice == Some(invoice)
           then SuppressedAsPaid(s.rows[id], s.now) else s.rows[id])
    case MoveToDeadLetter(id, letter) => s.(deadLetters := s.deadLetters[letter := s.rows[id].key])
    case ReplayDeadLetter(letter, stamp) =>
      var key := s.deadLetters[letter] + ":replay:" + stamp;
      if KeyInUse(s, key) then s
      else Inserted(s.(deadLetters := s.deadLetters - {letter}), key, None, 3, Some(s.now))
    case Purge(scope) =>
      var gone := set id | id in s.rows && id in scope && Purgeable(s.rows[id], s.now);
      s.(rows := s.rows - gone, ended := s.ended + map id | id in gone :: s.rows[id].status)
  }

  // ---- runs ----

  ghost predicate Legal(c: Config, s: State, steps: seq<Step>)
    decreases |steps|
  {
    steps == [] || (Enabled(s, steps[0]) && Legal(c, Next(c, s, steps[0]), steps[1..]))
  }

  ghost function Run(c: Config, s: State, steps: seq<Step>): State
    requires Legal(c, s, steps)
    decreases |steps|
  {
    if steps == [] then s else Run(c, Next(c, s, steps[0]), steps[1..])
  }
}
