// School policies: a database column read through a cache that forgets after five minutes.
module PolicyCache {
  import opened Models
  import opened QuietHours

  datatype Policy = Policy(version: string, quietHours: Window, maxReminderAttempts: int, enabled: bool)

  const DEFAULT_POLICY := Policy("v1", Window(21, 8), 3, true)

  const CACHE_TTL: int := 300 * SECOND

  // A cached policy, with the instants at which its load read the database and wrote the cache.
  datatype Entry = Entry(policy: Policy, readAt: int, storedAt: int)

  // The column may be empty; the cache may hold nothing.
  datatype Shared = Shared(db: Option<Policy>, cache: Option<Entry>)

  function Hit(sh: Shared, now: int): Option<Entry> {
    if sh.cache.Some? && now < sh.cache.value.storedAt + CACHE_TTL then sh.cache else None
  }

  function Current(sh: Shared): Policy {
    if sh.db.Some? then sh.db.value else DEFAULT_POLICY
  }

  // What a load gives; getOk says whether it could read the cache.
  function Loaded(sh: Shared, now: int, getOk: bool): Policy {
    if getOk && Hit(sh, now).Some? then sh.cache.value.policy else Current(sh)
  }

  // What is stored in the cache is served from there for exactly 300 seconds.
  lemma HitIff(policy: Policy, readAt: int, storedAt: int, db: Option<Policy>, now: int)
    ensures Hit(Shared(db, Some(Entry(policy, readAt, storedAt))), now).Some? <==> now < storedAt + 300_000_000
  {}

  // A school without a policy of its own has version v1, quiet hours from 21 to 8 and three attempts, and is enabled.
  lemma WithoutPolicy(cache: Option<Entry>, now: int, getOk: bool)
    requires getOk ==> Hit(Shared(None, cache), now).None?
    ensures var p := Loaded(Shared(None, cache), now, getOk);
            && p.version == "v1" && p.quietHours.startHour == 21 && p.quietHours.endHour == 8
            && p.maxReminderAttempts == 3 && p.enabled
  {}

  // ---- interleaved loads and saves ----

  datatype Reading = Reading(policy: Policy, readAt: int)

  datatype Snapshot = Snapshot(at: int, db: Option<Policy>)

  // loads holds the loads that have read the database and not yet written the cache; history every instant so far.
  datatype System = System(now: int, sh: Shared, loads: map<int, Reading>, history: seq<Snapshot>)

  datatype Action =
    | Tick(elapsed: nat)
    | ReadDatabase(load: int)
    | StoreInCache(load: int, succeeds: bool)
    | CommitSave(policy: Policy)
    | Invalidate(succeeds: bool)

  function Start(now: int, db: Option<Policy>): System {
    System(now, Shared(db, None), map[], [Snapshot(now, db)])
  }

  function Effect(s: System, a: Action): System {
    match a
    case Tick(elapsed) => s.(now := s.now + elapsed)
    case ReadDatabase(load) =>
      if s.sh.db.None? then s else s.(loads := s.loads[load := Reading(s.sh.db.value, s.now)])
    case StoreInCache(load, succeeds) =>
      if load !in s.loads then s else
      var r := s.loads[load];
      s.(loads := s.loads - {load},
         sh := if succeeds then s.sh.(cache := Some(Entry(r.policy, r.readAt, s.now))) else s.sh)
    case CommitSave(policy) => s.(sh := s.sh.(db := Some(policy)))
    case Invalidate(succeeds) => if succeeds then s.(sh := s.sh.(cache := None)) else s
  }

  function Next(s: System, a: Action): System {
    var s' := Effect(s, a);
    s'.(history := s.history + [Snapshot(s'.now, s'.sh.db)])
  }

  function Run(s: System, actions: seq<Action>): System
    decreases |actions|
  {
    if actions == [] then s else Run(Next(s, actions[0]), actions[1..])
  }

  ghost predicate WasPolicyAt(history: seq<Snapshot>, policy: Policy, at: int) {
    Snapshot(at, Some(policy)) in history
  }

  ghost predicate Sound(s: System) {
    && Snapshot(s.now, s.sh.db) in s.history
    && (forall l :: l in s.loads ==>
         s.loads[l].readAt <= s.now && WasPolicyAt(s.history, s.loads[l].policy, s.loads[l].readAt))
    && (s.sh.cache.Some? ==>
         var e := s.sh.cache.value;
         e.readAt <= e.storedAt <= s.now && WasPolicyAt(s.history, e.policy, e.readAt))
  }

  lemma {:induction false} RunStaysSound(s: System, actions: seq<Action>)
    requires Sound(s)
    ensures Sound(Run(s, actions))
    decreases |actions|
  {
    if actions != [] {
      NextStaysSound(s, actions[0]);
      RunStaysSound(Next(s, actions[0]), actions[1..]);
    }
  }

  lemma NextStaysSound(s: System, a: Action)
    requires Sound(s)
    ensures Sound(Next(s, a))
  {
    var s' := Next(s, a);
    assert s'.history[|s.history|] == Snapshot(s'.now, s'.sh.db);
    assert forall shot :: shot in s.history ==> shot in s'.history;
    forall l | l in s'.loads
      ensures s'.loads[l].readAt <= s'.now && WasPolicyAt(s'.history, s'.loads[l].policy, s'.loads[l].readAt)
    {
      assert WasPolicyAt(s.history, s'.loads[l].policy, s'.loads[l].readAt);
    }
  }

  // Whatever is interleaved and whatever fails, a policy served from the cache was the database's at an instant
  // less than five minutes, plus the time its load took to store it, ago.
  lemma ServedPolicyIsRecent(start: int, db: Option<Policy>, actions: seq<Action>)
    ensures var s := Run(Start(start, db), actions);
            var served := Hit(s.sh, s.now);
            served.Some? ==>
              var e := served.value;
              && WasPolicyAt(s.history, e.policy, e.readAt)
              && e.readAt <= s.now < e.readAt + 300_000_000 + (e.storedAt - e.readAt)
  {
    RunStaysSound(Start(start, db), actions);
  }

  // A load that straddles a save defeats the invalidation although nothing fails: the old policy is served again.
  lemma StraddlingLoadServesOldPolicy(start: int, was: Policy, becomes: Policy)
    ensures var s := Run(Start(start, Some(was)),
                         [ReadDatabase(0), CommitSave(becomes), Invalidate(true), StoreInCache(0, true)]);
            s.sh.db == Some(becomes) && Hit(s.sh, s.now).Some? && Hit(s.sh, s.now).value.policy == was
  {
    var s0 := Start(start, Some(was));
    var s1 := Next(s0, ReadDatabase(0));
    var s2 := Next(s1, CommitSave(becomes));
    var s3 := Next(s2, Invalidate(true));
    var s4 := Next(s3, StoreInCache(0, true));
    assert Run(s3, [StoreInCache(0, true)]) == s4 by {
      assert [StoreInCache(0, true)][1..] == [];
    }
    assert Run(s2, [Invalidate(true), StoreInCache(0, true)]) == s4 by {
      assert [Invalidate(true), StoreInCache(0, true)][1..] == [StoreInCache(0, true)];
    }
    assert [CommitSave(becomes), Invalidate(true), StoreInCache(0, true)][1..]
        == [Invalidate(true), StoreInCache(0, true)];
    assert [ReadDatabase(0), CommitSave(becomes), Invalidate(true), StoreInCache(0, true)][1..]
        == [CommitSave(becomes), Invalidate(true), StoreInCache(0, true)];
  }

  // ---- when a save takes effect ----

  predicate Saves(actions: seq<Action>) {
    exists i :: 0 <= i < |actions| && actions[i].CommitSave?
  }

  // Whether the cache could be reached or not, a load that asks now gets this policy.
  predicate Serves(s: System, policy: Policy) {
    Loaded(s.sh, s.now, true) == policy && Loaded(s.sh, s.now, false) == policy
  }

  // Whatever happens short of another save, every load gets this policy.
  ghost predicate ServesFromNowOn(s: System, policy: Policy) {
    forall after: seq<Action> {:trigger Saves(after)} :: !Saves(after) ==> Serves(Run(s, after), policy)
  }

  predicate PendingAgree(s: System, policy: Policy) {
    forall l :: l in s.loads ==> s.loads[l].policy == policy
  }

  predicate CacheAgrees(s: System, policy: Policy) {
    Hit(s.sh, s.now).Some? ==> s.sh.cache.value.policy == policy
  }

  predicate Settled(s: System, policy: Policy) {
    s.sh.db == Some(policy) && PendingAgree(s, policy) && CacheAgrees(s, policy)
  }

  lemma {:induction false} SettledStays(s: System, policy: Policy, after: seq<Action>)
    requires Settled(s, policy) && !Saves(after)
    ensures Serves(Run(s, after), policy)
    decreases |after|
  {
    if after != [] {
      assert !after[0].CommitSave?;
      assert forall i :: 0 <= i < |after| - 1 ==> after[1..][i] == after[i + 1];
      SettledStays(Next(s, after[0]), policy, after[1..]);
    }
  }

  lemma RunOne(s: System, a: Action)
    ensures Run(s, [a]) == Next(s, a)
  {
    assert [a][1..] == [];
  }

  // Once a policy is in the database, every later load gets it exactly when no load that is still to write the cache
  // has read another, and the cache does not serve another now.
  lemma ServesFromNowOnIff(s: System, policy: Policy)
    requires s.sh.db == Some(policy)
    ensures ServesFromNowOn(s, policy) <==> PendingAgree(s, policy) && CacheAgrees(s, policy)
  {
    if Settled(s, policy) {
      forall after: seq<Action> | !Saves(after) ensures Serves(Run(s, after), policy) {
        SettledStays(s, policy, after);
      }
    }
    if ServesFromNowOn(s, policy) {
      assert !Saves([]) && Serves(Run(s, []), policy);
      forall l | l in s.loads ensures s.loads[l].policy == policy {
        RunOne(s, StoreInCache(l, true));
        assert !Saves([StoreInCache(l, true)]) && Serves(Run(s, [StoreInCache(l, true)]), policy);
      }
    }
  }

  function Saved(s: System, policy: Policy, invalidated: bool): System {
    Next(Next(s, CommitSave(policy)), Invalidate(invalidated))
  }

  // A save takes effect exactly when no load is under way that read another policy; if its invalidation fails, the
  // cache must not be serving another policy either. Both can be seen before the save.
  lemma SaveTakesEffectIff(s: System, policy: Policy, invalidated: bool)
    ensures ServesFromNowOn(Saved(s, policy, invalidated), policy)
            <==> PendingAgree(s, policy) && (invalidated || CacheAgrees(s, policy))
  {
    ServesFromNowOnIff(Saved(s, policy, invalidated), policy);
  }

  // ---- one call at a time ----

  // getOk, setOk and deleteOk say whether the cache could be reached.
  datatype Call = Load(now: int, getOk: bool, setOk: bool) | Save(policy: Policy, deleteOk: bool)

  function AfterCall(sh: Shared, call: Call): Shared {
    match call
    case Load(now, getOk, setOk) =>
      if (getOk && Hit(sh, now).Some?) || sh.db.None? || !setOk then sh
      else sh.(cache := Some(Entry(sh.db.value, now, now)))
    case Save(policy, deleteOk) => Shared(Some(policy), if deleteOk then None else sh.cache)
  }

  function AfterCalls(sh: Shared, calls: seq<Call>): Shared
    decreases |calls|
  {
    if calls == [] then sh else AfterCalls(AfterCall(sh, calls[0]), calls[1..])
  }

  function LastSaved(db: Option<Policy>, calls: seq<Call>): Option<Policy> {
    if calls == [] then db
    else if calls[|calls| - 1].Save? then Some(calls[|calls| - 1].policy)
    else LastSaved(db, calls[..|calls| - 1])
  }

  lemma {:induction false} AfterOneMoreCall(sh: Shared, calls: seq<Call>, call: Call)
    ensures AfterCalls(sh, calls + [call]) == AfterCall(AfterCalls(sh, calls), call)
    decreases |calls|
  {
    if calls == [] {
      assert [call][1..] == [];
      assert [] + [call] == [call];
    } else {
      assert (calls + [call])[1..] == calls[1..] + [call];
      AfterOneMoreCall(AfterCall(sh, calls[0]), calls[1..], call);
    }
  }

  // When calls do not overlap and every invalidation gets through, a load gives the last policy saved, even while
  // other cache reads and writes fail.
  lemma {:induction false} LoadGivesLastSaved(db: Option<Policy>, calls: seq<Call>, now: int, getOk: bool)
    requires forall c :: c in calls && c.Save? ==> c.deleteOk
    ensures var sh := AfterCalls(Shared(db, None), calls);
            && sh.db == LastSaved(db, calls)
            && (sh.cache.Some? ==> Some(sh.cache.value.policy) == sh.db)
            && Loaded(sh, now, getOk) == Current(Shared(LastSaved(db, calls), None))
  {
    if calls != [] {
      var before, call := calls[..|calls| - 1], calls[|calls| - 1];
      assert call in calls && calls == before + [call];
      assert forall c :: c in before ==> c in calls;
      LoadGivesLastSaved(db, before, now, getOk);
      AfterOneMoreCall(Shared(db, None), before, call);
    }
  }

  ghost predicate GivenFrom(sh: Shared, policy: Policy, now: int) {
    forall at, getOk :: at >= now ==> Loaded(sh, at, getOk) == policy
  }

  // One call at a time, a save is what every later load gives exactly when its invalidation got through or the cache
  // was not serving another policy.
  lemma SaveIsGivenIff(sh: Shared, policy: Policy, deleteOk: bool, now: int)
    ensures GivenFrom(AfterCall(sh, Save(policy, deleteOk)), policy, now)
            <==> deleteOk || (Hit(sh, now).Some? ==> sh.cache.value.policy == policy)
  {
    var after := AfterCall(sh, Save(policy, deleteOk));
    if GivenFrom(after, policy, now) {
      assert Loaded(after, now, true) == policy;
    }
  }

  datatype SaveError = SchoolNotFound

  class PolicyService {
    const onFile: bool  // is the school on file; if not, it has no column
    var db: Option<Policy>
    var cache: Option<Entry>

    ghost predicate Valid()
      reads this
    {
      onFile || db.None?
    }

    ghost function State(): Shared
      reads this
    {
      Shared(db, cache)
    }

    constructor (onFile: bool, db: Option<Policy>)
      requires onFile || db.None?
      ensures Valid() && this.onFile == onFile && State() == Shared(db, None)
    {
      this.onFile, this.db, cache := onFile, db, None;
    }

    method LoadPolicy(now: int, getOk: bool, setOk: bool) returns (policy: Policy)
      requires Valid()
      modifies this`cache
      ensures Valid() && policy == Loaded(old(State()), now, getOk)
      ensures State() == AfterCall(old(State()), Load(now, getOk, setOk))
    {
      if getOk && cache.Some? && now < cache.value.storedAt + CACHE_TTL {
        return cache.value.policy;
      }
      if onFile && db.Some? {
        policy := db.value;
        if setOk {
          cache := Some(Entry(policy, now, now));
        }
        return;
      }
      return DEFAULT_POLICY;
    }

    method SavePolicy(policy: Policy, deleteOk: bool) returns (r: Result<(), SaveError>)
      requires Valid()
      modifies this
      ensures Valid() && r == if onFile then Ok(()) else Err(SchoolNotFound)
      ensures State() == if onFile then AfterCall(old(State()), Save(policy, deleteOk)) else old(State())
    {
      if !onFile {
        return Err(SchoolNotFound);
      }
      db := Some(policy);
      if deleteOk {
        cache := None;
      }
      return Ok(());
    }
  }
}
