/** Crash-restartable schema migrations. */
module Migrations {
  import opened Text

  /** What happens at one file in one run of the program: it goes through; the run ends before its
      commit, or before the file is found to be applied already (failed query, unreadable file, lost
      connection, crash, rollback); the run ends after it. */
  datatype Fate = GoesThrough | EndsBefore | EndsAfter

  /** The database, the rows of schema_migrations, and as history the versions in commit order. */
  datatype Schema<D> = Schema(db: D, applied: set<string>, log: seq<string>)

  /** One migration with its bookkeeping row, in one transaction. `sql` executes the file; None when
      a statement fails. */
  function Migrate<D>(s: Schema<D>, version: string, sql: (string, D) -> Option<D>): Option<Schema<D>> {
    match sql(version, s.db)
    case None => None
    case Some(d) => Some(Schema(d, s.applied + {version}, s.log + [version]))
  }

  function Uninterrupted(version: string): Fate {
    GoesThrough
  }

  datatype Outcome<D> = Outcome(schema: Schema<D>, completed: bool)

  /** A run over the sorted files from position `i` on. */
  function RunFrom<D>(s: Schema<D>, files: seq<string>, i: nat, sql: (string, D) -> Option<D>,
                      fate: string -> Fate): Outcome<D>
    requires i <= |files|
    decreases |files| - i
  {
    if i == |files| then Outcome(s, true)
    else if fate(files[i]).EndsBefore? then Outcome(s, false)
    else match if files[i] in s.applied then Some(s) else Migrate(s, files[i], sql)
      case None => Outcome(s, false)
      case Some(t) => if fate(files[i]).EndsAfter? then Outcome(t, false) else RunFrom(t, files, i + 1, sql, fate)
  }

  /** Executing a list of files in order. */
  function Execute<D>(d: D, files: seq<string>, sql: (string, D) -> Option<D>): Option<D> {
    if files == [] then Some(d)
    else match Execute(d, files[..|files| - 1], sql)
      case None => None
      case Some(e) => sql(files[|files| - 1], e)
  }

  /** Since the start the new files, all among those passed and none recorded before, were executed and
      recorded in order; and every file passed is recorded now. */
  ghost predicate Committed<D>(start: Schema<D>, s: Schema<D>, news: seq<string>, passed: seq<string>,
                               sql: (string, D) -> Option<D>)
  {
    && s.log == start.log + news && s.applied == start.applied + Elements(news)
    && Execute(start.db, news, sql) == Some(s.db)
    && (forall v :: v in news ==> v in passed && v !in start.applied)
    && forall v :: v in passed ==> v in s.applied
  }

  lemma CommitMore<D>(start: Schema<D>, s: Schema<D>, news: seq<string>, passed: seq<string>, version: string,
                      sql: (string, D) -> Option<D>)
    requires Committed(start, s, news, passed, sql) && version !in s.applied && Migrate(s, version, sql).Some?
    ensures Committed(start, Migrate(s, version, sql).value, news + [version], passed + [version], sql)
  {
    assert (news + [version])[..|news|] == news;
    assert start.log + (news + [version]) == start.log + news + [version];
  }

  lemma {:induction false} RunCommits<D>(
      s: Schema<D>, start: Schema<D>, before: seq<string>, files: seq<string>, i: nat,
      sql: (string, D) -> Option<D>, fate: string -> Fate) returns (news: seq<string>, upTo: nat)
    requires i <= |files| && Committed(start, s, before, files[..i], sql)
    ensures i <= upTo <= |files|
    ensures Committed(start, RunFrom(s, files, i, sql, fate).schema, news, files[..upTo], sql)
    ensures RunFrom(s, files, i, sql, fate).completed ==> upTo == |files|
    decreases |files| - i
  {
    news, upTo := before, i;
    if i < |files| && !fate(files[i]).EndsBefore? {
      var t := s;
      assert files[..i + 1] == files[..i] + [files[i]];
      if files[i] !in s.applied {
        if Migrate(s, files[i], sql).None? {
          return;
        }
        t, news := Migrate(s, files[i], sql).value, before + [files[i]];
        CommitMore(start, s, before, files[..i], files[i], sql);
      }
      upTo := i + 1;
      if !fate(files[i]).EndsAfter? {
        news, upTo := RunCommits(t, start, news, files, i + 1, sql, fate);
      }
    }
  }

  /** What any run executes and records. */
  lemma RunCommitsFound<D>(s: Schema<D>, found: seq<string>, sql: (string, D) -> Option<D>, fate: string -> Fate)
    returns (news: seq<string>)
    ensures var o := RunFrom(s, SortStrings(found), 0, sql, fate);
      && o.schema.log == s.log + news && o.schema.applied == s.applied + (set version | version in news)
      && Execute(s.db, news, sql) == Some(o.schema.db)
      && (forall version :: version in news ==> version in found && version !in s.applied)
      && (o.completed ==> forall version :: version in found ==> version in o.schema.applied)
  {
    var files := SortStrings(found);
    var upTo;
    news, upTo := RunCommits(s, s, [], files, 0, sql, fate);
    SortKeepsMembers(found);
    assert upTo == |files| ==> files[..upTo] == files;
  }

  /** The program's database object. */
  class Database<D> {
    var db: D
    var applied: set<string>
    ghost var log: seq<string>

    constructor (d: D)
      ensures View() == Schema(d, {}, [])
    {
      db, applied, log := d, {}, [];
    }

    ghost function View(): Schema<D>
      reads this
    {
      Schema(db, applied, log)
    }

    /** ApplyMigrations */
    method ApplyMigrations(found: seq<string>, sql: (string, D) -> Option<D>, fate: string -> Fate)
      returns (ok: bool, ghost news: seq<string>)
      modifies this
      ensures Outcome(View(), ok) == RunFrom(old(View()), SortStrings(found), 0, sql, fate)
      ensures log == old(log) + news && applied == old(applied) + (set version | version in news)
      ensures Execute(old(db), news, sql) == Some(db)
      ensures forall version :: version in news ==> version in found && version !in old(applied)
      ensures ok ==> forall version :: version in found ==> version in applied
    {
      var files := SortStrings(found);
      news := RunCommitsFound(View(), found, sql, fate);
      ok := false;
      var i := 0;
      while i < |files|
        invariant i <= |files|
        invariant RunFrom(View(), files, i, sql, fate) == RunFrom(old(View()), files, 0, sql, fate)
      {
        var version := files[i];
        if fate(version).EndsBefore? {
          return;
        }
        if version !in applied {
          var result := sql(version, db);
          if result.None? {
            return;
          }
          db, applied, log := result.value, applied + {version}, log + [version];
        }
        if fate(version).EndsAfter? {
          return;
        }
        i := i + 1;
      }
      ok := true;
    }
  }

  /** The program started once per list of fates, whatever became of the runs before. */
  function Restarts<D>(s: Schema<D>, files: seq<string>, sql: (string, D) -> Option<D>,
                       runs: seq<string -> Fate>): Schema<D> {
    if runs == [] then s
    else RunFrom(Restarts(s, files, sql, runs[..|runs| - 1]), files, 0, sql, runs[|runs| - 1]).schema
  }

  /** From a start with the first `from` files applied, exactly the first `upTo` files are applied,
      each committed once and in order, and the database is what executing them gives. */
  ghost predicate AppliedUpTo<D>(s: Schema<D>, start: Schema<D>, files: seq<string>, from: nat, upTo: nat,
                                 sql: (string, D) -> Option<D>)
    requires from <= upTo <= |files|
  {
    && s.applied == Elements(files[..upTo])
    && s.log == start.log + files[from..upTo]
    && Execute(start.db, files[from..upTo], sql) == Some(s.db)
  }

  predicate Distinct(files: seq<string>) {
    forall i, j :: 0 <= i < j < |files| ==> files[i] != files[j]
  }

  lemma OneMore<D>(s: Schema<D>, start: Schema<D>, files: seq<string>, from: nat, upTo: nat,
                   sql: (string, D) -> Option<D>)
    requires from <= upTo < |files| && AppliedUpTo(s, start, files, from, upTo, sql)
    requires Migrate(s, files[upTo], sql).Some?
    ensures AppliedUpTo(Migrate(s, files[upTo], sql).value, start, files, from, upTo + 1, sql)
  {
    assert files[..upTo + 1] == files[..upTo] + [files[upTo]];
    assert files[from..upTo + 1] == files[from..upTo] + [files[upTo]];
  }

  /** Wherever a run ends, the applied files are a prefix of the sorted ones that only grew; when it
      completes, they are all of them. */
  lemma {:induction false} RunKeepsPrefix<D>(
      s: Schema<D>, start: Schema<D>, files: seq<string>, from: nat, upTo: nat, i: nat,
      sql: (string, D) -> Option<D>, fate: string -> Fate) returns (reached: nat)
    requires Distinct(files) && from <= upTo <= |files| && i <= upTo
    requires AppliedUpTo(s, start, files, from, upTo, sql)
    ensures upTo <= reached <= |files|
    ensures AppliedUpTo(RunFrom(s, files, i, sql, fate).schema, start, files, from, reached, sql)
    ensures RunFrom(s, files, i, sql, fate).completed ==> reached == |files|
    decreases |files| - i
  {
    reached := upTo;
    if i < |files| {
      if i < upTo {
        assert files[i] in files[..upTo];
        if fate(files[i]).GoesThrough? {
          reached := RunKeepsPrefix(s, start, files, from, upTo, i + 1, sql, fate);
        }
      } else {
        assert files[i] !in files[..upTo];
        if !fate(files[i]).EndsBefore? && Migrate(s, files[i], sql).Some? {
          OneMore(s, start, files, from, upTo, sql);
          reached := upTo + 1;
          if !fate(files[i]).EndsAfter? {
            reached := RunKeepsPrefix(Migrate(s, files[i], sql).value, start, files, from, upTo + 1, i + 1, sql, fate);
          }
        }
      }
    }
  }

  lemma {:induction false} RestartsKeepPrefix<D>(
      start: Schema<D>, files: seq<string>, from: nat, sql: (string, D) -> Option<D>, runs: seq<string -> Fate>)
    returns (reached: nat)
    requires Distinct(files) && from <= |files| && start.applied == Elements(files[..from])
    ensures from <= reached <= |files|
    ensures AppliedUpTo(Restarts(start, files, sql, runs), start, files, from, reached, sql)
    decreases |runs|
  {
    if runs == [] {
      reached := from;
      assert files[from..from] == [];
    } else {
      var before := RestartsKeepPrefix(start, files, from, sql, runs[..|runs| - 1]);
      var s := Restarts(start, files, sql, runs[..|runs| - 1]);
      reached := RunKeepsPrefix(s, start, files, from, before, 0, sql, runs[|runs| - 1]);
    }
  }

  lemma SortingKeepsDistinct(found: seq<string>)
    requires Distinct(found)
    ensures Distinct(SortStrings(found))
  {
    var files := SortStrings(found);
    forall i, j | 0 <= i < j < |files| ensures files[i] != files[j] {
      if files[i] == files[j] {
        TwiceInBag(files, i, j);
        OnceInBag(found, files[i]);
      }
    }
  }

  lemma TwiceInBag(s: seq<string>, i: nat, j: nat)
    requires i < j < |s| && s[i] == s[j]
    ensures multiset(s)[s[i]] >= 2
  {
    assert s == s[..j] + s[j..] && s[j..] == [s[j]] + s[j + 1..];
    assert s[..j][i] in multiset(s[..j]);
  }

  lemma {:induction false} OnceInBag(s: seq<string>, x: string)
    requires Distinct(s)
    ensures multiset(s)[x] <= 1
  {
    if s != [] {
      assert s == [s[0]] + s[1..];
      OnceInBag(s[1..], x);
      if x == s[0] {
        assert x !in s[1..];
      }
    }
  }

  /** From any applied prefix, through any number of runs that crash or fail at any point: the
      applied set stays a prefix of the sorted files and every migration is committed exactly once,
      in order. */
  lemma MigrationsCommitOnce<D>(start: Schema<D>, found: seq<string>, from: nat, sql: (string, D) -> Option<D>,
                                runs: seq<string -> Fate>)
    requires Distinct(found) && from <= |SortStrings(found)|
    requires start.applied == Elements(SortStrings(found)[..from])
    ensures var files := SortStrings(found);
      var s := Restarts(start, files, sql, runs);
      exists reached :: from <= reached <= |files|
        && s.applied == Elements(files[..reached]) && s.log == start.log + files[from..reached]
        && Distinct(files[from..reached]) && Execute(start.db, files[from..reached], sql) == Some(s.db)
  {
    SortingKeepsDistinct(found);
    var reached := RestartsKeepPrefix(start, SortStrings(found), from, sql, runs);
  }

  /** Once a run completes, after any number of interrupted ones, the database, the applied set and
      the order of commits are those of a single uninterrupted run from the start. */
  lemma CompletedRunIsCleanRun<D>(
      start: Schema<D>, found: seq<string>, from: nat, sql: (string, D) -> Option<D>, runs: seq<string -> Fate>,
      last: string -> Fate)
    requires Distinct(found) && from <= |SortStrings(found)|
    requires start.applied == Elements(SortStrings(found)[..from])
    requires RunFrom(Restarts(start, SortStrings(found), sql, runs), SortStrings(found), 0, sql, last).completed
    ensures RunFrom(Restarts(start, SortStrings(found), sql, runs), SortStrings(found), 0, sql, last)
         == RunFrom(start, SortStrings(found), 0, sql, Uninterrupted)
  {
    var files := SortStrings(found);
    SortingKeepsDistinct(found);
    assert files[from..from] == [];
    var before := RestartsKeepPrefix(start, files, from, sql, runs);
    AllApplied(Restarts(start, files, sql, runs), start, files, from, before, sql, last);
    CleanRunCompletes(start, start, files, from, from, 0, sql);
    AllApplied(start, start, files, from, from, sql, Uninterrupted);
  }

  /** What a completed run leaves behind is determined by the start alone. */
  lemma AllApplied<D>(
      s: Schema<D>, start: Schema<D>, files: seq<string>, from: nat, upTo: nat, sql: (string, D) -> Option<D>,
      fate: string -> Fate)
    requires Distinct(files) && from <= upTo <= |files| && AppliedUpTo(s, start, files, from, upTo, sql)
    requires RunFrom(s, files, 0, sql, fate).completed
    ensures Execute(start.db, files[from..], sql).Some?
    ensures RunFrom(s, files, 0, sql, fate).schema
         == Schema(Execute(start.db, files[from..], sql).value, Elements(files), start.log + files[from..])
  {
    var reached := RunKeepsPrefix(s, start, files, from, upTo, 0, sql, fate);
    assert files[..|files|] == files && files[from..|files|] == files[from..];
  }

  lemma {:induction false} PrefixExecutes<D>(d: D, files: seq<string>, n: nat, sql: (string, D) -> Option<D>)
    requires n <= |files| && Execute(d, files, sql).Some?
    ensures Execute(d, files[..n], sql).Some?
    decreases |files|
  {
    if n < |files| {
      PrefixExecutes(d, files[..|files| - 1], n, sql);
      assert files[..|files| - 1][..n] == files[..n];
    } else {
      assert files[..n] == files;
    }
  }

  /** When all files execute, an uninterrupted run completes. */
  lemma {:induction false} CleanRunCompletes<D>(
      s: Schema<D>, start: Schema<D>, files: seq<string>, from: nat, upTo: nat, i: nat, sql: (string, D) -> Option<D>)
    requires Distinct(files) && from <= upTo <= |files| && i <= upTo
    requires AppliedUpTo(s, start, files, from, upTo, sql) && Execute(start.db, files[from..], sql).Some?
    ensures RunFrom(s, files, i, sql, Uninterrupted).completed
    decreases |files| - i
  {
    if i < |files| {
      if i < upTo {
        assert files[i] in files[..upTo];
        CleanRunCompletes(s, start, files, from, upTo, i + 1, sql);
      } else {
        assert files[i] !in files[..upTo];
        PrefixExecutes(start.db, files[from..], upTo + 1 - from, sql);
        assert files[from..][..upTo + 1 - from] == files[from..upTo + 1];
        assert files[from..upTo + 1][..upTo - from] == files[from..upTo];
        OneMore(s, start, files, from, upTo, sql);
        CleanRunCompletes(Migrate(s, files[i], sql).value, start, files, from, upTo + 1, i + 1, sql);
      }
    }
  }
}
