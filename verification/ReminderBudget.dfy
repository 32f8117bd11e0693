// How often one reminder may be texted: its row may be copied to the dead letters and replayed, while it stays on offer
// itself, and every such row has a budget of its own.
module ReminderBudget {
  import opened Models
  import opened Outbox
  import opened Protocol
  import opened ProtocolTheorems

  // The reminder's own key and the keys of its replays, replays of replays included.
  predicate InFamily(key: string, root: string) {
    key == root || root + ":replay:" <= key
  }

  lemma InFamilyIff(key: string, root: string)
    ensures InFamily(key, root) <==> key == root || exists rest: string :: key == root + ":replay:" + rest
  {
    var start := root + ":replay:";
    if start <= key {
      assert key == start + key[|start|..];
    }
    forall rest: string | key == start + rest ensures start <= key {
      assert (start + rest)[..|start|] == start;
    }
  }

  predicate IsMember(s: State, root: string, id: nat) {
    id in s.born && InFamily(s.born[id].key, root)
  }

  // Over the first n rows ever inserted, how often those of the family were submitted, how often in batches that
  // aborted, and what budgets they came with.
  function Submits(s: State, root: string, n: nat): nat {
    if n == 0 then 0 else Submits(s, root, n - 1) + if IsMember(s, root, n - 1) then s.submits[n - 1] else 0
  }

  function Aborted(s: State, root: string, n: nat): nat {
    if n == 0 then 0 else Aborted(s, root, n - 1) + if IsMember(s, root, n - 1) then s.aborted[n - 1] else 0
  }

  function Budgets(born: map<nat, Birth>, root: string, n: nat): nat {
    if n == 0 then 0
    else Budgets(born, root, n - 1)
         + if n - 1 in born && InFamily(born[n - 1].key, root) then born[n - 1].maxRetries else 0
  }

  lemma {:induction false} SubmitsWithinBudgets(c: Config, s: State, root: string, n: nat)
    requires Reached(c, s)
    ensures Submits(s, root, n) <= Budgets(s.born, root, n) + Aborted(s, root, n)
  {
    if n > 0 {
      SubmitsWithinBudgets(c, s, root, n - 1);
      SubmitsAreBounded(c, s, n - 1);
    }
  }

  function Letters(letters: map<nat, string>, root: string): set<nat> {
    set l | l in letters && InFamily(letters[l], root)
  }

  // The budgets in the outbox, and the most that the dead letters may add to them.
  function Potential(s: State, root: string, most: nat): nat {
    Budgets(s.born, root, s.nextId) + most * |Letters(s.deadLetters, root)|
  }

  // The step brings the reminder in: really inserted, copied to the dead letters, or as the replay of another message.
  // An offer that the table refuses, because the key is in use, brings in nothing.
  predicate BringsIn(s: State, step: Step, root: string) {
    match step
    case Insert(key, _, _, _) => InFamily(key, root) && !KeyInUse(s, key)
    case MoveToDeadLetter(id, _) => id in s.rows && InFamily(s.rows[id].key, root)
    case ReplayDeadLetter(letter, stamp) =>
      letter in s.deadLetters && !InFamily(s.deadLetters[letter], root) &&
      var key := s.deadLetters[letter] + ":replay:" + stamp; InFamily(key, root) && !KeyInUse(s, key)
    case _ => false
  }

  function TimesBroughtIn(c: Config, s: State, steps: seq<Step>, root: string): nat
    requires Legal(c, s, steps)
    decreases |steps|
  {
    if steps == [] then 0
    else TimesBroughtIn(c, Next(c, s, steps[0]), steps[1..], root) + if BringsIn(s, steps[0], root) then 1 else 0
  }

  predicate Modest(step: Step, most: nat) {
    step.Insert? ==> step.maxRetries <= most
  }

  lemma {:induction false} BudgetsOfOlder(born: map<nat, Birth>, n: nat, b: Birth, root: string, m: nat)
    requires m <= n
    ensures Budgets(born[n := b], root, m) == Budgets(born, root, m)
  {
    if m > 0 {
      BudgetsOfOlder(born, n, b, root, m - 1);
    }
  }

  lemma InsertAddsBudget(s: State, key: string, invoice: Option<int>, maxRetries: nat, at: Option<int>, root: string,
                         most: nat)
    requires maxRetries <= most
    ensures var t := Inserted(s, key, invoice, maxRetries, at);
            && t.deadLetters == s.deadLetters
            && Budgets(t.born, root, t.nextId)
               <= Budgets(s.born, root, s.nextId) + if InFamily(key, root) && !KeyInUse(s, key) then most else 0
  {
    BudgetsOfOlder(s.born, s.nextId, Birth(key, s.now, maxRetries), root, s.nextId);
  }

  lemma LetterAdds(letters: map<nat, string>, letter: nat, key: string, root: string)
    requires letter !in letters
    ensures |Letters(letters[letter := key], root)| == |Letters(letters, root)| + if InFamily(key, root) then 1 else 0
  {
    assert Letters(letters[letter := key], root)
        == Letters(letters, root) + if InFamily(key, root) then {letter} else {};
  }

  lemma LetterLeaves(letters: map<nat, string>, letter: nat, root: string)
    requires letter in letters
    ensures |Letters(letters - {letter}, root)|
            == |Letters(letters, root)| - if InFamily(letters[letter], root) then 1 else 0
  {
    assert Letters(letters - {letter}, root)
        == Letters(letters, root) - if InFamily(letters[letter], root) then {letter} else {};
  }

  lemma ReplayStaysInFamily(key: string, stamp: string, root: string)
    requires InFamily(key, root)
    ensures InFamily(key + ":replay:" + stamp, root)
  {
    if key == root {
      assert (root + ":replay:" + stamp)[..|root + ":replay:"|] == root + ":replay:";
    } else {
      assert (key + ":replay:" + stamp)[..|root + ":replay:"|] == key[..|root + ":replay:"|];
    }
  }

  // Only a step that brings the reminder in adds to what it may cost: a replay uses up the letter it comes from.
  lemma PotentialStep(c: Config, s: State, step: Step, root: string, most: nat)
    requires Enabled(s, step) && Modest(step, most) && most >= 3
    ensures Potential(Next(c, s, step), root, most)
            <= Potential(s, root, most) + if BringsIn(s, step, root) then most else 0
  {
    match step
    case Insert(key, invoice, maxRetries, at) => InsertAddsBudget(s, key, invoice, maxRetries, at, root, most);
    case MoveToDeadLetter(id, letter) =>
      LetterAdds(s.deadLetters, letter, s.rows[id].key, root);
      Times(most, |Letters(s.deadLetters, root)|);
    case ReplayDeadLetter(letter, stamp) => ReplayCosts(c, s, letter, stamp, root, most);
    case _ => OthersCostNothing(c, s, step, root);
  }

  lemma Times(a: nat, b: nat)
    ensures a * (b + 1) == a * b + a
  {}

  lemma OthersCostNothing(c: Config, s: State, step: Step, root: string)
    requires Enabled(s, step) && !step.Insert? && !step.MoveToDeadLetter? && !step.ReplayDeadLetter?
    ensures var t := Next(c, s, step); t.born == s.born && t.nextId == s.nextId && t.deadLetters == s.deadLetters
  {}

  lemma ReplayCosts(c: Config, s: State, letter: nat, stamp: string, root: string, most: nat)
    requires letter in s.deadLetters && most >= 3
    ensures Potential(Next(c, s, ReplayDeadLetter(letter, stamp)), root, most)
            <= Potential(s, root, most) + if BringsIn(s, ReplayDeadLetter(letter, stamp), root) then most else 0
  {
    var dead := s.deadLetters[letter];
    var key := dead + ":replay:" + stamp;
    if !KeyInUse(s, key) {
      var left := s.(deadLetters := s.deadLetters - {letter});
      InsertAddsBudget(left, key, None, 3, Some(s.now), root, most);
      LetterLeaves(s.deadLetters, letter, root);
      if InFamily(dead, root) {
        ReplayStaysInFamily(dead, stamp, root);
        assert letter in Letters(s.deadLetters, root);
        Times(most, |Letters(s.deadLetters, root)| - 1);
      }
    }
  }

  lemma {:induction false} PotentialRun(c: Config, s: State, steps: seq<Step>, root: string, most: nat)
    requires Legal(c, s, steps) && most >= 3 && forall i :: 0 <= i < |steps| ==> Modest(steps[i], most)
    ensures Potential(Run(c, s, steps), root, most)
            <= Potential(s, root, most) + most * TimesBroughtIn(c, s, steps, root)
    decreases |steps|
  {
    if steps != [] {
      PotentialStep(c, s, steps[0], root, most);
      PotentialRun(c, Next(c, s, steps[0]), steps[1..], root, most);
      Times(most, TimesBroughtIn(c, Next(c, s, steps[0]), steps[1..], root));
    }
  }

  // One reminder's rows together are handed to the provider at most once per retry budgeted for every time it was
  // brought in, plus once for every aborted batch that had handed one of them over.
  lemma TextsPerReminder(c: Config, now: int, steps: seq<Step>, root: string, most: nat)
    requires Legal(c, Initial(now), steps) && most >= 3 && forall i :: 0 <= i < |steps| ==> Modest(steps[i], most)
    ensures var s := Run(c, Initial(now), steps);
            Submits(s, root, s.nextId)
            <= most * TimesBroughtIn(c, Initial(now), steps, root) + Aborted(s, root, s.nextId)
  {
    var s := Run(c, Initial(now), steps);
    assert Reached(c, s);
    SubmitsWithinBudgets(c, s, root, s.nextId);
    PotentialRun(c, Initial(now), steps, root, most);
    assert Letters(map[], root) == {};
    assert Potential(Initial(now), root, most) == 0;
  }
}
