/** The migration runner: one transaction per file and record, run again after any
    failure or crash, also by several processes at once. */
module Migrations {
  import opened Wrappers
  import opened FileOrder

  // ----- The directory -----

  datatype DirEntry = DirEntry(name: string, isDir: bool)

  /** `content` holds what can be read of each file. */
  datatype Directory = Directory(entries: seq<DirEntry>, content: map<string, string>)

  const SUFFIX := ".sql"

  predicate HasSuffix(name: string) {
    |name| >= 4 && name[|name| - 4..] == SUFFIX
  }

  predicate IsSql(e: DirEntry) {
    !e.isDir && HasSuffix(e.name)
  }

  function SqlNames(entries: seq<DirEntry>): (names: seq<string>) {
    var n := |entries|;
    if n == 0 then []
    else SqlNames(entries[..n - 1]) + if IsSql(entries[n - 1]) then [entries[n - 1].name] else []
  }

  function Files(dir: Directory): seq<string> {
    Sort(SqlNames(dir.entries))
  }

  function Version(file: string): string {
    if |file| >= 4 then file[..|file| - 4] else file
  }

  /** The version of a file is its name without the suffix. */
  lemma VersionExact(stem: string)
    ensures Version(stem + ".sql") == stem
  {
    assert (stem + ".sql")[..|stem|] == stem;
  }

  /** No name occurs twice in a directory. */
  ghost predicate DistinctNames(entries: seq<DirEntry>) {
    forall i, j | 0 <= i < j < |entries| :: entries[i].name != entries[j].name
  }

  ghost predicate Distinct(s: seq<string>) {
    forall i, j | 0 <= i < j < |s| :: s[i] != s[j]
  }

  predicate Listed(entries: seq<DirEntry>, x: string) {
    exists i :: 0 <= i < |entries| && entries[i].name == x
  }

  lemma {:induction false} SqlNamesListed(entries: seq<DirEntry>)
    ensures forall x | x in SqlNames(entries) :: Listed(entries, x) && HasSuffix(x)
  {
    var n := |entries|;
    if n == 0 {
    } else {
      var before := entries[..n - 1];
      SqlNamesListed(before);
      forall x | x in SqlNames(before) ensures Listed(entries, x) {
        var i :| 0 <= i < |before| && before[i].name == x;
        assert entries[i].name == x;
      }
    }
  }

  /** An entry of this name that is a file and ends in .sql. */
  predicate SqlFileAt(entries: seq<DirEntry>, i: nat, x: string) {
    i < |entries| && !entries[i].isDir && entries[i].name == x && |x| >= 4 && x[|x| - 4..] == ".sql"
  }

  lemma {:induction false} SqlNamesExact(entries: seq<DirEntry>, x: string)
    ensures x in SqlNames(entries) <==> exists i: nat :: SqlFileAt(entries, i, x)
  {
    var n := |entries|;
    if n == 0 {
    } else {
      var before := entries[..n - 1];
      SqlNamesExact(before, x);
      forall i: nat | i < n - 1 ensures SqlFileAt(before, i, x) <==> SqlFileAt(entries, i, x) {
      }
      if IsSql(entries[n - 1]) && entries[n - 1].name == x {
        assert SqlFileAt(entries, n - 1, x);
      }
    }
  }

  /** The files to apply: every .sql file of the directory and nothing else, in byte order. */
  lemma FilesExact(dir: Directory)
    ensures forall x :: x in Files(dir) <==> exists i: nat :: SqlFileAt(dir.entries, i, x)
    ensures forall i, j | 0 <= i < j < |Files(dir)| :: InByteOrder(Files(dir)[i], Files(dir)[j])
  {
    var (names, files) := (SqlNames(dir.entries), Files(dir));
    SortIsSorted(names);
    assert files == Sort(names);
    hide SqlNames, Files, Sort, SqlFileAt, Leq;
    forall x ensures x in files <==> exists i: nat :: SqlFileAt(dir.entries, i, x) {
      SqlNamesExact(dir.entries, x);
      assert x in files <==> x in multiset(files);
      assert x in names <==> x in multiset(names);
    }
    forall i, j | 0 <= i < j < |files| ensures InByteOrder(files[i], files[j]) {
      LeqIsByteOrder(files[i], files[j]);
    }
  }

  lemma {:induction false} SqlNamesDistinct(entries: seq<DirEntry>)
    requires DistinctNames(entries)
    ensures Distinct(SqlNames(entries))
  {
    var n := |entries|;
    if n == 0 {
    } else {
      var before := entries[..n - 1];
      SqlNamesDistinct(before);
      SqlNamesListed(before);
      forall x | x in SqlNames(before) ensures x != entries[n - 1].name {
        var i :| 0 <= i < |before| && before[i].name == x;
        assert entries[i].name == x;
      }
    }
  }

  lemma {:induction false} DistinctByCount(s: seq<string>)
    ensures Distinct(s) <==> forall x | x in s :: multiset(s)[x] == 1
  {
    if s == [] {
    } else {
      DistinctByCount(s[1..]);
      assert s == [s[0]] + s[1..];
      assert multiset(s) == multiset{s[0]} + multiset(s[1..]);
      assert s[0] in s[1..] <==> s[0] in multiset(s[1..]);
      if Distinct(s) {
        assert s[0] !in s[1..];
      } else if forall x | x in s :: multiset(s)[x] == 1 {
        assert s[0] in s;
        forall x | x in s[1..] ensures multiset(s[1..])[x] == 1 {
          assert x in s && multiset(s)[x] == 1 && x in multiset(s[1..]);
        }
      }
    }
  }

  lemma FilesDistinct(dir: Directory)
    requires DistinctNames(dir.entries)
    ensures Distinct(Files(dir))
    ensures forall x | x in Files(dir) :: HasSuffix(x)
  {
    var names, files := SqlNames(dir.entries), Files(dir);
    SqlNamesListed(dir.entries);
    SqlNamesDistinct(dir.entries);
    SortIsSorted(names);
    DistinctByCount(names);
    forall x | x in files ensures x in names {
      assert x in multiset(files);
    }
    DistinctByCount(files);
  }

  lemma VersionInjective(x: string, y: string)
    requires HasSuffix(x) && HasSuffix(y) && Version(x) == Version(y)
    ensures x == y
  {
    assert x == Version(x) + x[|x| - 4..] && y == Version(y) + y[|y| - 4..];
  }

  /** The versions to apply are distinct: no file shadows another. */
  lemma VersionsDistinct(dir: Directory)
    requires DistinctNames(dir.entries)
    ensures var files := Files(dir);
      forall i, j | 0 <= i < j < |files| :: Version(files[i]) != Version(files[j])
  {
    FilesDistinct(dir);
    var files := Files(dir);
    forall i, j | 0 <= i < j < |files| ensures Version(files[i]) != Version(files[j]) {
      assert files[i] in files && files[j] in files;
      if Version(files[i]) == Version(files[j]) {
        VersionInjective(files[i], files[j]);
      }
    }
  }

  // ----- One file -----

  /** What the migrations work on, and the rows of `schema_migrations` as inserted. */
  datatype Db<D> = Db(data: D, records: seq<string>)

  /** What goes wrong around one file; `commit` tells what becomes of the transaction. */
  datatype Fault = Fault(checkFails: bool, readFails: bool, beginFails: bool, execFails: bool, recordFails: bool,
      commit: Reply)

  const NO_FAULT := Fault(false, false, false, false, false, Done)

  /** The transaction: script and record take effect together or not at all. The record's
      primary key rejects a version that is already there. */
  function Transact<D>(exec: (string, D) -> Option<D>, dir: Directory, file: string, fault: Fault,
      db: Db<D>): (Db<D>, bool) {
    if fault.readFails || file !in dir.content || fault.beginFails then (db, false)
    else
      var out := exec(dir.content[file], db.data);
      if out.None? || fault.execFails || fault.recordFails || Version(file) in db.records then (db, false)
      else if !fault.commit.TookEffect() then (db, false)
      else (Db(out.value, db.records + [Version(file)]), fault.commit == Done)
  }

  // ----- One run -----

  /** The loop over the files from position `i` on. */
  function RunFrom<D>(exec: (string, D) -> Option<D>, dir: Directory, files: seq<string>, i: nat,
      faults: string -> Fault, db: Db<D>): (Db<D>, bool)
    requires i <= |files|
    decreases |files| - i
  {
    if i == |files| then (db, true)
    else if faults(files[i]).checkFails then (db, false)
    else if Version(files[i]) in db.records then RunFrom(exec, dir, files, i + 1, faults, db)
    else
      var (db', ok) := Transact(exec, dir, files[i], faults(files[i]), db);
      if ok then RunFrom(exec, dir, files, i + 1, faults, db') else (db', false)
  }

  /** The files applied one after another to `d`, if each of them succeeds. */
  function Replay<D>(exec: (string, D) -> Option<D>, dir: Directory, files: seq<string>, d: D): Option<D> {
    var n := |files|;
    if n == 0 then Some(d)
    else
      var before := Replay(exec, dir, files[..n - 1], d);
      if before.None? || files[n - 1] !in dir.content then None
      else exec(dir.content[files[n - 1]], before.value)
  }

  function Versions(files: seq<string>): (v: seq<string>)
    ensures |v| == |files|
  {
    seq(|files|, i requires 0 <= i < |files| => Version(files[i]))
  }

  /** The first `k` files, each applied once and in order, and exactly their records. */
  ghost predicate AppliedUpTo<D>(exec: (string, D) -> Option<D>, dir: Directory, d: D, db: Db<D>, k: nat) {
    var files := Files(dir);
    && k <= |files|
    && db.records == Versions(files[..k])
    && Replay(exec, dir, files[..k], d) == Some(db.data)
  }

  lemma RecordedIff<D>(exec: (string, D) -> Option<D>, dir: Directory, d: D, db: Db<D>, k: nat, i: nat)
    requires DistinctNames(dir.entries) && AppliedUpTo(exec, dir, d, db, k) && i < |Files(dir)|
    ensures Version(Files(dir)[i]) in db.records <==> i < k
  {
    VersionsDistinct(dir);
    var files := Files(dir);
    if i < k {
      assert db.records[i] == Version(files[i]);
    }
  }

  lemma TransactStep<D>(exec: (string, D) -> Option<D>, dir: Directory, d: D, fault: Fault, db: Db<D>, k: nat, i: nat)
    requires DistinctNames(dir.entries) && AppliedUpTo(exec, dir, d, db, k) && i < |Files(dir)| && i <= k
    ensures var (db', ok) := Transact(exec, dir, Files(dir)[i], fault, db);
      (db' == db && !ok) || (i == k && AppliedUpTo(exec, dir, d, db', k + 1) && (ok <==> fault.commit == Done))
  {
    RecordedIff(exec, dir, d, db, k, i);
    var files := Files(dir);
    if i == k {
      assert files[..k + 1][..k] == files[..k];
      assert Versions(files[..k + 1]) == Versions(files[..k]) + [Version(files[k])];
    }
  }

  /** One run resumes where the database stands, stops at the first thing that fails, and
      ends well only with every file applied. */
  lemma {:induction false} RunAppliesPrefix<D>(exec: (string, D) -> Option<D>, dir: Directory, d: D,
      faults: string -> Fault, db: Db<D>, k: nat, i: nat)
    returns (k': nat)
    requires DistinctNames(dir.entries) && AppliedUpTo(exec, dir, d, db, k) && i <= k
    ensures var (db', ok) := RunFrom(exec, dir, Files(dir), i, faults, db);
      && k <= k' && AppliedUpTo(exec, dir, d, db', k')
      && (ok ==> k' == |Files(dir)|)
      && (k == |Files(dir)| ==> db' == db)
    decreases |Files(dir)| - i
  {
    var files := Files(dir);
    k' := k;
    if i == |files| {
    } else {
      RecordedIff(exec, dir, d, db, k, i);
      if !faults(files[i]).checkFails {
        if i < k {
          k' := RunAppliesPrefix(exec, dir, d, faults, db, k, i + 1);
        } else {
          TransactStep(exec, dir, d, faults(files[i]), db, k, i);
          var (db', ok) := Transact(exec, dir, files[i], faults(files[i]), db);
          if AppliedUpTo(exec, dir, d, db', k + 1) && (ok || db' != db) {
            k' := k + 1;
            if ok {
              k' := RunAppliesPrefix(exec, dir, d, faults, db', k + 1, i + 1);
            }
          }
        }
      }
    }
  }

  /** With nothing going wrong, a run ends well exactly if all scripts run one after the
      other from where the database started. */
  lemma {:induction false} CalmRunCompletes<D>(exec: (string, D) -> Option<D>, dir: Directory, d: D,
      faults: string -> Fault, db: Db<D>, k: nat, i: nat)
    requires DistinctNames(dir.entries) && AppliedUpTo(exec, dir, d, db, k) && i <= k
    requires forall file :: faults(file) == NO_FAULT
    ensures RunFrom(exec, dir, Files(dir), i, faults, db).1 <==> Replay(exec, dir, Files(dir), d).Some?
    decreases |Files(dir)| - i
  {
    var files := Files(dir);
    if i == |files| {
      assert files[..k] == files;
    } else {
      RecordedIff(exec, dir, d, db, k, i);
      if i < k {
        CalmRunCompletes(exec, dir, d, faults, db, k, i + 1);
      } else {
        TransactStep(exec, dir, d, faults(files[i]), db, k, i);
        var (db', ok) := Transact(exec, dir, files[i], faults(files[i]), db);
        if ok {
          CalmRunCompletes(exec, dir, d, faults, db', k + 1, i + 1);
        } else {
          assert files[..k + 1][..k] == files[..k];
          ReplayStops(exec, dir, files, d, k + 1);
        }
      }
    }
  }

  lemma {:induction false} ReplayStops<D>(exec: (string, D) -> Option<D>, dir: Directory, files: seq<string>, d: D,
      k: nat)
    requires k <= |files| && Replay(exec, dir, files[..k], d).None?
    ensures Replay(exec, dir, files, d).None?
  {
    if k == |files| {
      assert files[..k] == files;
    } else {
      assert files[..|files| - 1][..k] == files[..k];
      ReplayStops(exec, dir, files[..|files| - 1], d, k);
    }
  }

  // ----- Any number of runs, one after another or at once -----

  datatype Runner = Checking(i: nat) | Applying(i: nat) | Ended(ok: bool)

  datatype State<D> = State(db: Db<D>, runners: map<nat, Runner>)

  datatype Step =
    | Start(runner: nat, fails: bool)
    | Check(runner: nat, fails: bool)
    | Apply(runner: nat, fault: Fault)
    | Crash(runner: nat)

  ghost predicate Enabled<D>(s: State<D>, step: Step) {
    match step
    case Start(r, _) => r !in s.runners
    case Check(r, _) => r in s.runners && s.runners[r].Checking?
    case Apply(r, _) => r in s.runners && s.runners[r].Applying?
    case Crash(r) => r in s.runners
  }

  /** Where a runner goes once it is done with the files before `i`. */
  function GoTo(dir: Directory, i: nat): Runner {
    if i < |Files(dir)| then Checking(i) else Ended(true)
  }

  ghost function Next<D>(exec: (string, D) -> Option<D>, dir: Directory, s: State<D>, step: Step): State<D>
    requires Enabled(s, step)
  {
    match step
    case Start(r, fails) => s.(runners := s.runners[r := if fails then Ended(false) else GoTo(dir, 0)])
    case Check(r, fails) =>
      var i := s.runners[r].i;
      s.(runners := s.runners[r :=
        if fails || i >= |Files(dir)| then Ended(false)
        else if Version(Files(dir)[i]) in s.db.records then GoTo(dir, i + 1)
        else Applying(i)])
    case Apply(r, fault) =>
      var i := s.runners[r].i;
      if i >= |Files(dir)| then s.(runners := s.runners[r := Ended(false)])
      else
        var (db', ok) := Transact(exec, dir, Files(dir)[i], fault, s.db);
        State(db', s.runners[r := if ok then GoTo(dir, i + 1) else Ended(false)])
    case Crash(r) => s.(runners := s.runners[r := Ended(false)])
  }

  ghost predicate Runnable<D>(exec: (string, D) -> Option<D>, dir: Directory, s: State<D>, steps: seq<Step>)
    decreases |steps|, 0
  {
    var n := |steps|;
    n == 0 || (Runnable(exec, dir, s, steps[..n - 1]) && Enabled(Run(exec, dir, s, steps[..n - 1]), steps[n - 1]))
  }

  ghost function Run<D>(exec: (string, D) -> Option<D>, dir: Directory, s: State<D>, steps: seq<Step>): State<D>
    requires Runnable(exec, dir, s, steps)
    decreases |steps|, 1
  {
    var n := |steps|;
    if n == 0 then s else Next(exec, dir, Run(exec, dir, s, steps[..n - 1]), steps[n - 1])
  }

  lemma {:induction false} RunCons<D>(exec: (string, D) -> Option<D>, dir: Directory, s: State<D>, step: Step,
      rest: seq<Step>)
    requires Enabled(s, step) && Runnable(exec, dir, Next(exec, dir, s, step), rest)
    ensures Runnable(exec, dir, s, [step] + rest)
    ensures Run(exec, dir, s, [step] + rest) == Run(exec, dir, Next(exec, dir, s, step), rest)
    decreases |rest|
  {
    var (n, all) := (|rest|, [step] + rest);
    if n == 0 {
      assert all[..0] == [] && all == [step];
      assert Run(exec, dir, s, all[..0]) == s;
    } else {
      RunCons(exec, dir, s, step, rest[..n - 1]);
      assert all[..n] == [step] + rest[..n - 1];
    }
  }

  /** A runner that nobody interrupts comes to what the loop comes to. */
  lemma {:induction false} AloneIsTheLoop<D>(exec: (string, D) -> Option<D>, dir: Directory, s: State<D>, r: nat,
      i: nat, faults: string -> Fault)
    returns (steps: seq<Step>)
    requires i <= |Files(dir)| && r in s.runners && s.runners[r] == GoTo(dir, i)
    ensures Runnable(exec, dir, s, steps)
    ensures var (db', ok) := RunFrom(exec, dir, Files(dir), i, faults, s.db);
      Run(exec, dir, s, steps) == State(db', s.runners[r := Ended(ok)])
    decreases |Files(dir)| - i, 1
  {
    var files := Files(dir);
    if i == |files| {
      steps := [];
      assert s.runners[r := Ended(true)] == s.runners;
    } else {
      var file := files[i];
      var check := Check(r, faults(file).checkFails);
      var s1 := Next(exec, dir, s, check);
      var rest: seq<Step> := [];
      if faults(file).checkFails {
      } else if Version(file) in s.db.records {
        rest := AloneIsTheLoop(exec, dir, s1, r, i + 1, faults);
      } else {
        rest := AloneApplies(exec, dir, s1, r, i, faults);
      }
      assert s1.runners[r := Ended(true)] == s.runners[r := Ended(true)];
      assert s1.runners[r := Ended(false)] == s.runners[r := Ended(false)];
      hide Next, RunFrom, Files;
      NoSteps(exec, dir, s1);
      RunCons(exec, dir, s, check, rest);
      steps := [check] + rest;
    }
  }

  lemma NoSteps<D>(exec: (string, D) -> Option<D>, dir: Directory, s: State<D>)
    ensures Runnable(exec, dir, s, []) && Run(exec, dir, s, []) == s
  {
  }

  lemma {:induction false} AloneApplies<D>(exec: (string, D) -> Option<D>, dir: Directory, s: State<D>, r: nat,
      i: nat, faults: string -> Fault)
    returns (steps: seq<Step>)
    requires i < |Files(dir)| && r in s.runners && s.runners[r] == Applying(i)
    requires !faults(Files(dir)[i]).checkFails && Version(Files(dir)[i]) !in s.db.records
    ensures Runnable(exec, dir, s, steps)
    ensures var (db', ok) := RunFrom(exec, dir, Files(dir), i, faults, s.db);
      Run(exec, dir, s, steps) == State(db', s.runners[r := Ended(ok)])
    decreases |Files(dir)| - i, 0
  {
    var file := Files(dir)[i];
    var apply := Apply(r, faults(file));
    var s1 := Next(exec, dir, s, apply);
    var rest: seq<Step> := [];
    if Transact(exec, dir, file, faults(file), s.db).1 {
      rest := AloneIsTheLoop(exec, dir, s1, r, i + 1, faults);
    }
    assert s1.runners[r := Ended(true)] == s.runners[r := Ended(true)];
    assert s1.runners[r := Ended(false)] == s.runners[r := Ended(false)];
    hide Next, RunFrom, Files, Transact;
    NoSteps(exec, dir, s1);
    RunCons(exec, dir, s, apply, rest);
    steps := [apply] + rest;
  }

  predicate Behind(dir: Directory, runner: Runner, k: nat) {
    match runner
    case Checking(i) => i <= k
    case Applying(i) => i <= k
    case Ended(ok) => ok ==> k == |Files(dir)|
  }

  ghost predicate Inv<D>(exec: (string, D) -> Option<D>, dir: Directory, d: D, s: State<D>) {
    var k := |s.db.records|;
    && AppliedUpTo(exec, dir, d, s.db, k)
    && (forall r: nat | r in s.runners :: Behind(dir, s.runners[r], k))
  }

  lemma StepInv<D>(exec: (string, D) -> Option<D>, dir: Directory, d: D, s: State<D>, step: Step)
    requires DistinctNames(dir.entries) && Inv(exec, dir, d, s) && Enabled(s, step)
    ensures Inv(exec, dir, d, Next(exec, dir, s, step))
  {
    hide Transact, Files;
    var k := |s.db.records|;
    match step
    case Check(r, _) =>
      var i := s.runners[r].i;
      if i < |Files(dir)| {
        RecordedIff(exec, dir, d, s.db, k, i);
      }
    case Apply(r, fault) =>
      var i := s.runners[r].i;
      assert Behind(dir, s.runners[r], k);
      if i < |Files(dir)| {
        TransactStep(exec, dir, d, fault, s.db, k, i);
      }
    case _ =>
  }

  /** Whatever fails or crashes, in however many processes, the database is the first `k`
      files applied once each in order; a run that ends well has seen them all. */
  lemma {:induction false} AlwaysAPrefix<D>(exec: (string, D) -> Option<D>, dir: Directory, d: D, steps: seq<Step>)
    requires DistinctNames(dir.entries)
    requires Runnable(exec, dir, State(Db(d, []), map[]), steps)
    ensures var s := Run(exec, dir, State(Db(d, []), map[]), steps);
      && Inv(exec, dir, d, s)
      && (forall r: nat | r in s.runners && s.runners[r] == Ended(true) :: |s.db.records| == |Files(dir)|)
  {
    var n := |steps|;
    if n > 0 {
      AlwaysAPrefix(exec, dir, d, steps[..n - 1]);
      StepInv(exec, dir, d, Run(exec, dir, State(Db(d, []), map[]), steps[..n - 1]), steps[n - 1]);
    } else {
      assert Versions(Files(dir)[..0]) == [];
    }
  }

  /** Once every file is applied no step of any run changes the database. */
  lemma CompleteIsStable<D>(exec: (string, D) -> Option<D>, dir: Directory, d: D, s: State<D>, step: Step)
    requires DistinctNames(dir.entries) && Inv(exec, dir, d, s) && Enabled(s, step) && |s.db.records| == |Files(dir)|
    ensures Next(exec, dir, s, step).db == s.db
  {
    hide Transact, Files;
    if step.Apply? && s.runners[step.runner].i < |Files(dir)| {
      assert Behind(dir, s.runners[step.runner], |s.db.records|);
      TransactStep(exec, dir, d, step.fault, s.db, |s.db.records|, s.runners[step.runner].i);
    }
  }

  // ----- The runner -----

  class Migrator<D> {
    var db: Db<D>

    constructor (d: D)
      ensures db == Db(d, [])
    {
      db := Db(d, []);
    }

    method ListFiles(dir: Directory) returns (files: seq<string>)
      ensures files == Files(dir)
      ensures forall x :: x in files <==> exists i: nat :: SqlFileAt(dir.entries, i, x)
      ensures forall i, j | 0 <= i < j < |files| :: InByteOrder(files[i], files[j])
    {
      files := [];
      for n := 0 to |dir.entries|
        invariant files == SqlNames(dir.entries[..n])
      {
        assert dir.entries[..n + 1][..n] == dir.entries[..n];
        if IsSql(dir.entries[n]) {
          files := files + [dir.entries[n].name];
        }
      }
      assert dir.entries[..|dir.entries|] == dir.entries;
      files := Sort(files);
      assert files == Files(dir);
      FilesExact(dir);
      hide *;
    }

    method Migrate(exec: (string, D) -> Option<D>, dir: Directory, createFails: bool, listFails: bool,
        faults: string -> Fault)
      returns (ok: bool)
      modifies this
      ensures createFails || listFails ==> !ok && db == old(db)
      ensures !createFails && !listFails ==> (db, ok) == RunFrom(exec, dir, Files(dir), 0, faults, old(db))
      ensures ok ==> forall file | file in Files(dir) :: !faults(file).checkFails && Version(file) in db.records
      ensures old(db).records <= db.records
    {
      if createFails || listFails {
        return false;
      }
      var files := ListFiles(dir);
      for i := 0 to |files|
        invariant RunFrom(exec, dir, files, i, faults, db) == RunFrom(exec, dir, files, 0, faults, old(db))
        invariant forall k | 0 <= k < i :: !faults(files[k]).checkFails && Version(files[k]) in db.records
        invariant old(db).records <= db.records
      {
        var (file, fault) := (files[i], faults(files[i]));
        if fault.checkFails {
          return false;
        }
        if Version(file) in db.records {
          continue;
        }
        var applied := ApplyFile(exec, dir, file, fault);
        if !applied {
          return false;
        }
      }
      return true;
    }

    /** The body of the loop for a file that is not recorded: script and record take effect
        together, and only if everything before the commit has worked. */
    method ApplyFile(exec: (string, D) -> Option<D>, dir: Directory, file: string, fault: Fault) returns (ok: bool)
      requires Version(file) !in db.records
      modifies this
      ensures Transact(exec, dir, file, fault, old(db)) == (db, ok)
      ensures var works := file in dir.content && exec(dir.content[file], old(db).data).Some?
          && !fault.readFails && !fault.beginFails && !fault.execFails && !fault.recordFails;
        && (ok <==> works && fault.commit == Done)
        && (!works || fault.commit == Refused ==> db == old(db))
        && (works && fault.commit != Refused ==>
             Some(db.data) == exec(dir.content[file], old(db).data)
             && db.records == old(db).records + [Version(file)])
    {
      if fault.readFails || file !in dir.content || fault.beginFails {
        return false;
      }
      var out := exec(dir.content[file], db.data);
      if out.None? || fault.execFails || fault.recordFails || fault.commit == Refused {
        return false;
      }
      db := Db(out.value, db.records + [Version(file)]);
      ok := fault.commit == Done;
    }
  }
}
