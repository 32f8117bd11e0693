// Pruning of old backups: the newest few, and the newest few Sundays before them.
module BackupRetention {
  import Calendar
  import opened Models

  // A backup file is known by its modification time, an instant in local time; a directory listing is newest first.
  predicate NewestFirst(files: seq<int>) {
    forall i, j :: 0 <= i < j < |files| ==> files[i] > files[j]
  }

  // Day 0 of the clock was a Thursday; Monday is 0 and Sunday 6.
  predicate IsSunday(mtime: int) {
    (mtime / DAY + 3) % 7 == 6
  }

  // By the calendar: day 7 of year 1 was a Sunday, and every seventh day since is one.
  lemma IsSundayIff(mtime: int, d: Calendar.Date)
    requires mtime / 86_400_000_000 == Calendar.Ordinal(d) - 719_163
    ensures IsSunday(mtime) <==> Calendar.Ordinal(d) % 7 == 0
  {
    DaysOfWeek(Calendar.Ordinal(d));
  }

  lemma DaysOfWeek(n: int)
    ensures (n - 719_163 + 3) % 7 == 6 <==> n % 7 == 0
  {
    assert n - 719_160 == 7 * (n / 7) + n % 7 - 719_160;
  }

  // ---- what one prune keeps ----

  function NewestSundays(files: seq<int>, limit: nat): seq<int> {
    if files == [] || limit == 0 then []
    else if IsSunday(files[0]) then [files[0]] + NewestSundays(files[1..], limit - 1)
    else NewestSundays(files[1..], limit)
  }

  function Daily(files: seq<int>, keepDaily: nat): seq<int> {
    files[..Min(keepDaily, |files|)]
  }

  function Older(files: seq<int>, keepDaily: nat): seq<int> {
    files[Min(keepDaily, |files|)..]
  }

  function Pruned(files: seq<int>, keepDaily: nat, keepWeekly: nat): seq<int> {
    Daily(files, keepDaily) + NewestSundays(Older(files, keepDaily), keepWeekly)
  }

  // How many of the first n files were taken on a Sunday.
  function SundaysAmong(files: seq<int>, n: nat): nat
    requires n <= |files|
  {
    if n == 0 then 0 else SundaysAmong(files, n - 1) + if IsSunday(files[n - 1]) then 1 else 0
  }

  lemma {:induction false} SundaysAmongTail(files: seq<int>, n: nat)
    requires 1 <= n <= |files|
    ensures SundaysAmong(files, n) == SundaysAmong(files[1..], n - 1) + if IsSunday(files[0]) then 1 else 0
  {
    if n > 1 {
      SundaysAmongTail(files, n - 1);
    }
  }

  lemma {:induction false} SundayIsKept(files: seq<int>, limit: nat, i: nat)
    requires NewestFirst(files) && i < |files|
    ensures files[i] in NewestSundays(files, limit) <==> IsSunday(files[i]) && SundaysAmong(files, i) < limit
  {
    SundaysAreListed(files, limit);
    if limit > 0 {
      var rest := if IsSunday(files[0]) then limit - 1 else limit;
      SundaysAreListed(files[1..], rest);
      if i > 0 {
        SundayIsKept(files[1..], rest, i - 1);
        SundaysAmongTail(files, i);
        assert files[i] != files[0];
      } else {
        assert files[0] !in files[1..];
      }
    }
  }

  lemma {:induction false} SundaysAreListed(files: seq<int>, limit: nat)
    requires NewestFirst(files)
    ensures NewestFirst(NewestSundays(files, limit))
    ensures forall f :: f in NewestSundays(files, limit) ==> f in files
    ensures |NewestSundays(files, limit)| <= limit
  {
    if files != [] && limit > 0 {
      var rest := if IsSunday(files[0]) then limit - 1 else limit;
      SundaysAreListed(files[1..], rest);
      if IsSunday(files[0]) {
        Joined([files[0]], NewestSundays(files[1..], rest));
      }
    }
  }

  lemma Joined(newer: seq<int>, older: seq<int>)
    requires NewestFirst(newer) && NewestFirst(older)
    requires forall f, g :: f in newer && g in older ==> f > g
    ensures NewestFirst(newer + older)
  {
    forall i, j | 0 <= i < j < |newer + older| ensures (newer + older)[i] > (newer + older)[j] {
      if i < |newer| <= j {
        assert newer[i] in newer && older[j - |newer|] in older;
      }
    }
  }

  // The kept files, one by one: the newest keepDaily, and every older Sunday with fewer than keepWeekly
  // Sundays between it and the daily window.
  lemma KeptExactly(files: seq<int>, keepDaily: nat, keepWeekly: nat, i: nat)
    requires NewestFirst(files) && i < |files|
    ensures files[i] in Pruned(files, keepDaily, keepWeekly) <==>
            i < keepDaily
            || (IsSunday(files[i]) && SundaysAmong(files[keepDaily..], i - keepDaily) < keepWeekly)
  {
    var n := Min(keepDaily, |files|);
    var older := Older(files, keepDaily);
    SundaysAreListed(older, keepWeekly);
    if i < n {
      assert Daily(files, keepDaily)[i] == files[i];
    } else {
      assert older[i - n] == files[i];
      SundayIsKept(older, keepWeekly, i - n);
      assert files[i] !in Daily(files, keepDaily);
    }
  }

  // The same by the calendar, for a file of a known day.
  lemma KeptByCalendar(files: seq<int>, keepDaily: nat, keepWeekly: nat, i: nat, d: Calendar.Date)
    requires NewestFirst(files) && i < |files| && files[i] / 86_400_000_000 == Calendar.Ordinal(d) - 719_163
    ensures files[i] in Pruned(files, keepDaily, keepWeekly) <==>
            i < keepDaily
            || (Calendar.Ordinal(d) % 7 == 0 && SundaysAmong(files[keepDaily..], i - keepDaily) < keepWeekly)
  {
    KeptExactly(files, keepDaily, keepWeekly, i);
    IsSundayIff(files[i], d);
  }

  lemma PrunedIsListing(files: seq<int>, keepDaily: nat, keepWeekly: nat)
    requires NewestFirst(files)
    ensures NewestFirst(Pruned(files, keepDaily, keepWeekly))
    ensures forall f :: f in Pruned(files, keepDaily, keepWeekly) ==> f in files
  {
    SundaysAreListed(Older(files, keepDaily), keepWeekly);
    Joined(Daily(files, keepDaily), NewestSundays(Older(files, keepDaily), keepWeekly));
  }

  // ---- pruning as it goes is pruning at the end ----

  lemma {:induction false} SundaysOfSundays(files: seq<int>, limit: nat, again: nat)
    requires again <= limit
    ensures NewestSundays(NewestSundays(files, limit), again) == NewestSundays(files, again)
  {
    if files != [] && limit > 0 {
      if IsSunday(files[0]) {
        if again > 0 {
          SundaysOfSundays(files[1..], limit - 1, again - 1);
          assert ([files[0]] + NewestSundays(files[1..], limit - 1))[1..] == NewestSundays(files[1..], limit - 1);
        }
      } else {
        SundaysOfSundays(files[1..], limit, again);
      }
    }
  }

  lemma PruneAbsorbsOne(f: int, files: seq<int>, keepDaily: nat, keepWeekly: nat)
    ensures Pruned([f] + Pruned(files, keepDaily, keepWeekly), keepDaily, keepWeekly)
            == Pruned([f] + files, keepDaily, keepWeekly)
  {
    var older := Older(files, keepDaily);
    var sundays := NewestSundays(older, keepWeekly);
    var pruned := Pruned(files, keepDaily, keepWeekly);
    if keepDaily == 0 {
      assert files[0..] == files && pruned == sundays;
      assert Older([f] + files, 0) == [f] + files && Older([f] + sundays, 0) == [f] + sundays;
      OneMoreBeforeSundays(f, files, keepWeekly);
      assert Daily([f] + files, 0) == Daily([f] + pruned, 0) == [];
    } else if |files| < keepDaily {
      assert older == [] && pruned == files;
    } else {
      var last := files[keepDaily - 1];
      assert Daily([f] + files, keepDaily) == [f] + files[..keepDaily - 1] == Daily([f] + pruned, keepDaily);
      assert Older([f] + files, keepDaily) == [last] + older;
      assert Older([f] + pruned, keepDaily) == [last] + sundays;
      OneMoreBeforeSundays(last, older, keepWeekly);
    }
  }

  lemma OneMoreBeforeSundays(f: int, files: seq<int>, limit: nat)
    ensures NewestSundays([f] + NewestSundays(files, limit), limit) == NewestSundays([f] + files, limit)
  {
    assert ([f] + files)[1..] == files;
    assert ([f] + NewestSundays(files, limit))[1..] == NewestSundays(files, limit);
    if limit > 0 {
      SundaysOfSundays(files, limit, if IsSunday(f) then limit - 1 else limit);
    }
  }

  // A second prune deletes nothing more.
  lemma PruneTwice(files: seq<int>, keepDaily: nat, keepWeekly: nat)
    ensures Pruned(Pruned(files, keepDaily, keepWeekly), keepDaily, keepWeekly) == Pruned(files, keepDaily, keepWeekly)
  {
    var older, pruned := Older(files, keepDaily), Pruned(files, keepDaily, keepWeekly);
    SundaysOfSundays(older, keepWeekly, keepWeekly);
    if |files| < keepDaily {
      assert older == [] && pruned == files;
    } else {
      assert Daily(pruned, keepDaily) == Daily(files, keepDaily);
      assert Older(pruned, keepDaily) == NewestSundays(older, keepWeekly);
    }
  }

  // Files that were pruned earlier make no difference to a later prune, however many backups came in between.
  lemma {:induction false} PruneAbsorbs(newer: seq<int>, files: seq<int>, keepDaily: nat, keepWeekly: nat)
    ensures Pruned(newer + Pruned(files, keepDaily, keepWeekly), keepDaily, keepWeekly)
            == Pruned(newer + files, keepDaily, keepWeekly)
  {
    var pruned := Pruned(files, keepDaily, keepWeekly);
    if newer == [] {
      PruneTwice(files, keepDaily, keepWeekly);
      assert [] + files == files && [] + pruned == pruned;
    } else {
      var f, rest := newer[0], newer[1..];
      PruneAbsorbs(rest, files, keepDaily, keepWeekly);
      PruneAbsorbsOne(f, rest + pruned, keepDaily, keepWeekly);
      PruneAbsorbsOne(f, rest + files, keepDaily, keepWeekly);
      FirstAndTail(newer, pruned);
      FirstAndTail(newer, files);
    }
  }

  lemma FirstAndTail(newer: seq<int>, files: seq<int>)
    requires newer != []
    ensures newer + files == [newer[0]] + (newer[1..] + files)
  {}

  // A history of nights, latest first, each with the backups it produced; the directory after pruning every night.
  function Unpruned(nights: seq<seq<int>>): seq<int> {
    if nights == [] then [] else nights[0] + Unpruned(nights[1..])
  }

  function PrunedNightly(nights: seq<seq<int>>, keepDaily: nat, keepWeekly: nat): seq<int> {
    if nights == [] then []
    else Pruned(nights[0] + PrunedNightly(nights[1..], keepDaily, keepWeekly), keepDaily, keepWeekly)
  }

  lemma {:induction false} NightlyEqualsOnce(nights: seq<seq<int>>, keepDaily: nat, keepWeekly: nat)
    ensures PrunedNightly(nights, keepDaily, keepWeekly) == Pruned(Unpruned(nights), keepDaily, keepWeekly)
  {
    if nights != [] {
      NightlyEqualsOnce(nights[1..], keepDaily, keepWeekly);
      PruneAbsorbs(nights[0], Unpruned(nights[1..]), keepDaily, keepWeekly);
    }
  }

  // The backup directory.
  class BackupDirectory {
    var files: seq<int>  // as listed: newest first
    ghost var nights: seq<seq<int>>
    const keepDaily: nat
    const keepWeekly: nat

    ghost predicate Valid()
      reads this
    {
      NewestFirst(files) && files == PrunedNightly(nights, keepDaily, keepWeekly)
    }

    constructor (keepDaily: nat := 7, keepWeekly: nat := 4)
      ensures Valid() && files == [] && nights == []
      ensures this.keepDaily == keepDaily && this.keepWeekly == keepWeekly
    {
      this.keepDaily, this.keepWeekly := keepDaily, keepWeekly;
      files, nights := [], [];
    }

    // Prunes in place and counts what it deleted.
    method CleanupOldBackups() returns (deletedCount: nat)
      requires NewestFirst(files)
      modifies this`files
      ensures files == Pruned(old(files), keepDaily, keepWeekly) && NewestFirst(files)
      ensures deletedCount == |old(files)| - |files|
    {
      var listing := files;
      var kept := ChooseKept(listing, keepDaily, keepWeekly);
      files, deletedCount := DeleteUnkept(listing, kept);
      PrunedIsListing(listing, keepDaily, keepWeekly);
      FilterRestores(listing, keepDaily, keepWeekly, kept);
    }

    static method DeleteUnkept(listing: seq<int>, kept: set<int>) returns (left: seq<int>, deletedCount: nat)
      ensures left == Filter(listing, kept) && deletedCount == |listing| - |left|
    {
      left, deletedCount := [], 0;
      for j := 0 to |listing|
        invariant left + Filter(listing[j..], kept) == Filter(listing, kept)
        invariant deletedCount + |left| == j
      {
        assert listing[j..][1..] == listing[j + 1..];
        if listing[j] !in kept {
          deletedCount := deletedCount + 1;
        } else {
          left := left + [listing[j]];
        }
      }
    }

    // The files to keep: the daily window, then Sundays until there are enough of them.
    static method ChooseKept(listing: seq<int>, keepDaily: nat, keepWeekly: nat) returns (kept: set<int>)
      ensures kept == set f | f in Pruned(listing, keepDaily, keepWeekly)
    {
      var daily, older := Daily(listing, keepDaily), Older(listing, keepDaily);
      kept := set f | f in daily;
      var weeklyKept := 0;
      ghost var chosen: seq<int> := [];
      var i := 0;
      assert older[0..] == older && daily + [] == daily;
      while i < |older|
        invariant 0 <= i <= |older| && weeklyKept == |chosen| && ChosenSoFar(kept, daily, older, keepWeekly, i, chosen)
      {
        if weeklyKept >= keepWeekly {
          break;
        }
        NextOlder(kept, daily, older, keepWeekly, i, chosen);
        if IsSunday(older[i]) {
          kept := kept + {older[i]};
          chosen := chosen + [older[i]];
          weeklyKept := weeklyKept + 1;
        }
        i := i + 1;
      }
      ChosenAtLast(kept, daily, older, keepWeekly, i, chosen);
    }

    // The nightly job: one new backup, then a prune. The directory is what one prune of everything would leave.
    method RunBackupJob(mtime: int) returns (deletedCount: nat)
      requires Valid()
      requires files != [] ==> mtime > files[0]
      modifies this
      ensures Valid() && nights == [[mtime]] + old(nights)
      ensures files == Pruned(Unpruned(nights), keepDaily, keepWeekly)
      ensures deletedCount == |old(files)| + 1 - |files|
    {
      files := [mtime] + files;
      nights := [[mtime]] + nights;
      assert nights[1..] == old(nights);
      deletedCount := CleanupOldBackups();
      NightlyEqualsOnce(nights, keepDaily, keepWeekly);
    }
  }

  // The nightly job names no counts.
  method NightlyDirectory() returns (directory: BackupDirectory)
    ensures fresh(directory) && directory.Valid() && directory.files == []
    ensures directory.keepDaily == 7 && directory.keepWeekly == 4
  {
    directory := new BackupDirectory();
  }

  // The daily files and the Sundays chosen among the first i older ones are kept, and the rest is still to be chosen.
  ghost predicate ChosenSoFar(
      kept: set<int>, daily: seq<int>, older: seq<int>, keepWeekly: nat, i: nat, chosen: seq<int>)
  {
    && i <= |older| && |chosen| <= keepWeekly && kept == (set f | f in daily + chosen)
    && NewestSundays(older, keepWeekly) == chosen + NewestSundays(older[i..], keepWeekly - |chosen|)
  }

  lemma NextOlder(kept: set<int>, daily: seq<int>, older: seq<int>, keepWeekly: nat, i: nat, chosen: seq<int>)
    requires i < |older| && |chosen| < keepWeekly && ChosenSoFar(kept, daily, older, keepWeekly, i, chosen)
    ensures if IsSunday(older[i])
            then ChosenSoFar(kept + {older[i]}, daily, older, keepWeekly, i + 1, chosen + [older[i]])
            else ChosenSoFar(kept, daily, older, keepWeekly, i + 1, chosen)
  {
    assert older[i..][1..] == older[i + 1..];
    OneMoreKept(daily, chosen, older[i]);
  }

  lemma ChosenAtLast(kept: set<int>, daily: seq<int>, older: seq<int>, keepWeekly: nat, i: nat, chosen: seq<int>)
    requires ChosenSoFar(kept, daily, older, keepWeekly, i, chosen) && (i == |older| || |chosen| == keepWeekly)
    ensures kept == set f | f in daily + NewestSundays(older, keepWeekly)
  {
    assert NewestSundays(older[i..], keepWeekly - |chosen|) == [];
    assert chosen + [] == chosen;
  }

  lemma OneMoreKept(daily: seq<int>, chosen: seq<int>, f: int)
    ensures (set g | g in daily + chosen) + {f} == set g | g in daily + (chosen + [f])
  {}

  function Filter(files: seq<int>, kept: set<int>): seq<int> {
    if files == [] then []
    else (if files[0] in kept then [files[0]] else []) + Filter(files[1..], kept)
  }

  lemma {:induction false} FilterConcat(a: seq<int>, b: seq<int>, kept: set<int>)
    ensures Filter(a + b, kept) == Filter(a, kept) + Filter(b, kept)
  {
    if a == [] {
      assert a + b == b;
    } else {
      FilterConcat(a[1..], b, kept);
      assert (a + b)[1..] == a[1..] + b && (a + b)[0] == a[0];
      var head := if a[0] in kept then [a[0]] else [];
      assert head + (Filter(a[1..], kept) + Filter(b, kept)) == (head + Filter(a[1..], kept)) + Filter(b, kept);
    }
  }

  lemma {:induction false} FilterKeepsAll(files: seq<int>, kept: set<int>)
    requires forall i :: 0 <= i < |files| ==> files[i] in kept
    ensures Filter(files, kept) == files
  {
    if files != [] {
      FilterKeepsAll(files[1..], kept);
    }
  }

  lemma {:induction false} FilterKeepsSundays(files: seq<int>, limit: nat, kept: set<int>)
    requires NewestFirst(files)
    requires forall f :: f in files ==> (f in kept <==> f in NewestSundays(files, limit))
    ensures Filter(files, kept) == NewestSundays(files, limit)
  {
    if files != [] {
      var f, rest := files[0], files[1..];
      var left := if limit > 0 && IsSunday(f) then limit - 1 else limit;
      assert f in files && f !in rest;
      SundaysAreListed(rest, left);
      forall g | g in rest ensures g in kept <==> g in NewestSundays(rest, left) {
        assert g in files;
      }
      FilterKeepsSundays(rest, left, kept);
    }
  }

  lemma FilterRestores(files: seq<int>, keepDaily: nat, keepWeekly: nat, kept: set<int>)
    requires NewestFirst(files)
    requires kept == set f | f in Pruned(files, keepDaily, keepWeekly)
    ensures Filter(files, kept) == Pruned(files, keepDaily, keepWeekly)
  {
    var daily, older := Daily(files, keepDaily), Older(files, keepDaily);
    assert files == daily + older;
    FilterConcat(daily, older, kept);
    FilterKeepsAll(daily, kept);
    forall f | f in older ensures f !in daily {}
    FilterKeepsSundays(older, keepWeekly, kept);
  }
}
