/** The migration engine: internal/migrations/migrations.go. */
module Migrations {
  import opened Wrappers
  import opened Jobs
  import Q = Queue

  /** Go's < on strings. */
  predicate Less(a: string, b: string) {
    b != "" && (a == "" || a[0] < b[0] || (a[0] == b[0] && Less(a[1..], b[1..])))
  }

  lemma {:induction false} LessIsStrict(a: string, b: string)
    ensures !(Less(a, b) && Less(b, a)) && (a != b ==> Less(a, b) || Less(b, a))
  {
    if a != "" && b != "" && a[0] == b[0] {
      LessIsStrict(a[1..], b[1..]);
      assert a == [a[0]] + a[1..] && b == [b[0]] + b[1..];
    }
  }

  lemma {:induction false} LessTransitive(a: string, b: string, c: string)
    requires Less(a, b) && Less(b, c)
    ensures Less(a, c)
  {
    if a != "" && a[0] == b[0] && b[0] == c[0] { LessTransitive(a[1..], b[1..], c[1..]); }
  }

  /** Position k is the first where the strings differ, and a has the smaller character there. */
  predicate SmallerAt(a: string, b: string, k: nat) {
    k < |a| && k < |b| && a[..k] == b[..k] && a[k] < b[k]
  }

  /** The order is the lexicographic one: a comes first if it is a proper prefix of b, or smaller where they
      first differ. */
  lemma {:induction false} LessIff(a: string, b: string)
    ensures Less(a, b) <==> (a != b && a <= b) || exists k: nat :: SmallerAt(a, b, k)
  {
    if a != "" && b != "" {
      if a[0] == b[0] {
        LessIff(a[1..], b[1..]);
        assert a == [a[0]] + a[1..] && b == [b[0]] + b[1..];
        forall k: nat ensures SmallerAt(a, b, k) <==> k > 0 && SmallerAt(a[1..], b[1..], k - 1) {
          if 0 < k < |a| && k < |b| { assert a[..k] == [a[0]] + a[1..][..k - 1] && b[..k] == [b[0]] + b[1..][..k - 1]; }
        }
        forall k: nat ensures SmallerAt(a[1..], b[1..], k) <==> SmallerAt(a, b, k + 1) {
          assert SmallerAt(a, b, k + 1) <==> SmallerAt(a[1..], b[1..], k + 1 - 1);
        }
      } else {
        forall k: nat ensures SmallerAt(a, b, k) <==> k == 0 && a[0] < b[0] {
          if 0 < k < |a| && k < |b| { assert a[..k][0] == a[0] && b[..k][0] == b[0]; }
        }
        assert SmallerAt(a, b, 0) <==> a[0] < b[0];
      }
    }
  }

  predicate Sorted(names: seq<string>) {
    forall i, j :: 0 <= i < j < |names| ==> Less(names[i], names[j])
  }

  function Names(names: seq<string>): set<string> { set n | n in names }

  lemma SortedDistinct(names: seq<string>)
    requires Sorted(names)
    ensures Distinct(names)
  {
    forall i, j | 0 <= i < j < |names| ensures names[i] != names[j] {
      LessIsStrict(names[i], names[j]);
    }
  }

  // ----- migrationEntries -----

  datatype DirEntry = DirEntry(name: string, isDir: bool)

  predicate HasSuffix(name: string, suffix: string) {
    |suffix| <= |name| && name[|name| - |suffix|..] == suffix
  }

  lemma HasSuffixIff(name: string, suffix: string)
    ensures HasSuffix(name, suffix) <==> exists stem :: name == stem + suffix
  {
    if HasSuffix(name, suffix) { assert name == name[..|name| - |suffix|] + suffix; }
  }

  predicate IsMigration(e: DirEntry) { !e.isDir && HasSuffix(e.name, ".sql") }

  /** Names in a directory are unique. */
  predicate IsListing(dir: seq<DirEntry>) {
    forall i, j :: 0 <= i < j < |dir| ==> dir[i].name != dir[j].name
  }

  /** The position of name in a sorted list: before the first entry that is not less. */
  method Position(sorted: seq<string>, name: string) returns (at: nat)
    requires Sorted(sorted) && name !in sorted
    ensures at <= |sorted|
    ensures forall i :: 0 <= i < at ==> Less(sorted[i], name)
    ensures forall i :: at <= i < |sorted| ==> Less(name, sorted[i])
  {
    at := 0;
    while at < |sorted| && Less(sorted[at], name)
      invariant at <= |sorted|
      invariant forall i :: 0 <= i < at ==> Less(sorted[i], name)
    {
      at := at + 1;
    }
    forall i | at <= i < |sorted| ensures Less(name, sorted[i]) {
      LessIsStrict(sorted[at], name);
      if at < i { LessTransitive(name, sorted[at], sorted[i]); }
    }
  }

  method SortNames(names: seq<string>) returns (sorted: seq<string>)
    requires Distinct(names)
    ensures Sorted(sorted) && forall n :: n in sorted <==> n in names
  {
    sorted := [];
    for i := 0 to |names|
      invariant Sorted(sorted)
      invariant forall n :: n in sorted <==> n in names[..i]
    {
      assert names[i] !in names[..i];
      var at := Position(sorted, names[i]);
      assert sorted == sorted[..at] + sorted[at..];
      assert names[..i + 1] == names[..i] + [names[i]];
      sorted := sorted[..at] + [names[i]] + sorted[at..];
    }
    assert names[..|names|] == names;
  }

  predicate Lists(dir: seq<DirEntry>, n: string) {
    exists e <- dir :: IsMigration(e) && e.name == n
  }

  lemma ListsOne(dir: seq<DirEntry>, i: nat, n: string)
    requires IsListing(dir) && i < |dir|
    ensures Lists(dir[..i + 1], n) <==> Lists(dir[..i], n) || (IsMigration(dir[i]) && dir[i].name == n)
    ensures Lists(dir[..i], n) ==> dir[i].name != n
  {
    assert dir[..i + 1] == dir[..i] + [dir[i]];
    if Lists(dir[..i], n) {
      var e :| e in dir[..i] && IsMigration(e) && e.name == n;
      assert e in dir[..i + 1];
    }
    if IsMigration(dir[i]) && dir[i].name == n { assert dir[i] in dir[..i + 1]; }
  }

  /** The *.sql files of the directory, sorted by name. */
  method MigrationEntries(dir: seq<DirEntry>) returns (entries: seq<string>)
    requires IsListing(dir)
    ensures Sorted(entries) && forall n :: n in entries <==> Lists(dir, n)
  {
    var filtered := [];
    for i := 0 to |dir|
      invariant Distinct(filtered)
      invariant forall n :: n in filtered <==> Lists(dir[..i], n)
    {
      forall n ensures Lists(dir[..i + 1], n) <==> Lists(dir[..i], n) || (IsMigration(dir[i]) && dir[i].name == n) {
        ListsOne(dir, i, n);
      }
      ListsOne(dir, i, dir[i].name);
      if !dir[i].isDir && HasSuffix(dir[i].name, ".sql") { filtered := filtered + [dir[i].name]; }
    }
    assert dir[..|dir|] == dir;
    entries := SortNames(filtered);
  }

  // ----- The database -----

  /** What running a script does to a schema, if it succeeds. A released script never changes. */
  type Script<!S> = (string, S) -> Option<S>

  function Fold<S>(exec: Script<S>, scripts: seq<string>, schema: S): Option<S> {
    if scripts == [] then Some(schema)
    else match Fold(exec, scripts[..|scripts| - 1], schema)
      case None => None
      case Some(mid) => exec(scripts[|scripts| - 1], mid)
  }

  /** applied is the table schema_migrations; history lists the scripts that ever committed, in order. */
  datatype Db<S> = Db(hasTable: bool, applied: set<string>, schema: S, history: seq<string>)

  /** The entries not yet recorded, in their order. */
  function Missing(list: seq<string>, applied: set<string>): seq<string> {
    if list == [] then []
    else Missing(list[..|list| - 1], applied) + if list[|list| - 1] in applied then [] else [list[|list| - 1]]
  }

  /** d' is d after the scripts ran in turn and were recorded. */
  ghost predicate Ran<S>(exec: Script<S>, d: Db<S>, scripts: seq<string>, d': Db<S>) {
    && d'.history == d.history + scripts
    && d'.applied == d.applied + Names(scripts)
    && Fold(exec, scripts, d.schema) == Some(d'.schema)
    && (d.hasTable || scripts != [] ==> d'.hasTable)
  }

  /** What an Apply of list may leave of a database: it ran the first m missing scripts, once each. */
  ghost predicate Leaves<S>(exec: Script<S>, list: seq<string>, d: Db<S>, d': Db<S>, m: nat) {
    m <= |Missing(list, d.applied)| && Ran(exec, d, Missing(list, d.applied)[..m], d')
  }

  /** The script after the first m is the named one, and it does not run on the schema at hand. */
  predicate FailsAt<S>(exec: Script<S>, scripts: seq<string>, m: nat, schema: S, name: string) {
    m < |scripts| && scripts[m] == name && exec(name, schema).None?
  }

  lemma RanOne<S>(exec: Script<S>, d: Db<S>, scripts: seq<string>, d': Db<S>, name: string, d'': Db<S>)
    requires Ran(exec, d, scripts, d') && d'.hasTable && d''.hasTable && exec(name, d'.schema) == Some(d''.schema)
    requires d''.applied == d'.applied + {name} && d''.history == d'.history + [name]
    ensures Ran(exec, d, scripts + [name], d'')
  {
    assert (scripts + [name])[..|scripts|] == scripts;
    assert Names(scripts + [name]) == Names(scripts) + {name};
  }

  /** What the loop has to know of entry i. */
  lemma NextMissing(list: seq<string>, applied: set<string>, i: nat)
    requires Sorted(list) && i < |list|
    ensures Missing(list[..i + 1], applied) == Missing(list[..i], applied) + if list[i] in applied then [] else [list[i]]
    ensures Missing(list[..i + 1], applied) <= Missing(list, applied)
    ensures list[i] in applied + Names(Missing(list[..i], applied)) <==> list[i] in applied
  {
    assert list[..i + 1][..i] == list[..i];
    MissingPrefix(list, applied, i + 1);
    SortedDistinct(list);
    MissingIn(list[..i], applied, list[i]);
    assert list[i] !in list[..i];
  }

  predicate Complete<S>(list: seq<string>, d: Db<S>, m: nat) { m == |Missing(list, d.applied)| }

  datatype Compatibility = Compatible | Uninitialized | Ahead(version: string) | Behind(missing: seq<string>)

  datatype ApplyError = CallFailed | ScriptFailed(name: string)

  lemma {:induction false} MissingIn(list: seq<string>, applied: set<string>, n: string)
    ensures n in Missing(list, applied) <==> n in list && n !in applied
  {
    if list != [] {
      MissingIn(list[..|list| - 1], applied, n);
      assert list == list[..|list| - 1] + [list[|list| - 1]];
    }
  }

  lemma {:induction false} MissingPrefix(list: seq<string>, applied: set<string>, i: nat)
    requires i <= |list|
    ensures Missing(list[..i], applied) <= Missing(list, applied)
  {
    if i < |list| {
      MissingPrefix(list[..|list| - 1], applied, i);
      assert list[..|list| - 1][..i] == list[..i];
    } else {
      assert list[..i] == list;
    }
  }

  /** The calls before CREATE TABLE were acknowledged. */
  predicate FourAcked(sched: nat -> Q.Outcome) {
    sched(0) == Q.Acked && sched(1) == Q.Acked && sched(2) == Q.Acked && sched(3) == Q.Acked
  }

  class Database<S> {
    var hasTable: bool
    var applied: set<string>
    var schema: S
    /** History. */
    var history: seq<string>

    function St(): Db<S>
      reads this
    {
      Db(hasTable, applied, schema, history)
    }

    /** An empty database. */
    constructor (empty: S)
      ensures St() == Db(false, {}, empty, [])
    {
      hasTable, applied, schema, history := false, {}, empty, [];
    }

    /** The transaction for one entry: the script, its record, the commit. Anything that fails before the
        commit rolls back; a commit whose reply is lost has happened. */
    method ApplyOne(exec: Script<S>, name: string, begin: Q.Outcome, run: Q.Outcome, record: Q.Outcome, commit: Q.Outcome)
      returns (r: Result<(), ApplyError>, committed: bool)
      modifies this
      ensures hasTable == old(hasTable)
      ensures committed ==> exec(name, old(schema)) == Some(schema)
                            && applied == old(applied) + {name} && history == old(history) + [name]
      ensures !committed ==> St() == old(St())
      ensures committed <==> begin == run == record == Q.Acked && commit != Q.Refused && exec(name, old(schema)).Some?
      ensures r.Ok? ==> committed
      ensures exec(name, old(schema)).None? ==> r.Err?
      ensures r.Err? && r.error.ScriptFailed? ==> !committed && r.error.name == name && exec(name, schema).None?
      ensures begin == run == record == commit == Q.Acked ==>
                r == if exec(name, old(schema)).Some? then Ok(()) else Err(ScriptFailed(name))
    {
      if begin != Q.Acked { return Err(CallFailed), false; }
      var after := exec(name, schema);
      if after.None? { return Err(ScriptFailed(name)), false; }
      if run != Q.Acked || record != Q.Acked || commit == Q.Refused { return Err(CallFailed), false; }
      schema, applied, history := after.value, applied + {name}, history + [name];
      return if commit == Q.Acked then Ok(()) else Err(CallFailed), true;
    }

    /** The connection, the advisory lock, the schema and its search path, and schema_migrations. */
    method Prepare(sched: nat -> Q.Outcome) returns (ok: bool)
      modifies this`hasTable
      ensures hasTable <==> old(hasTable) || (FourAcked(sched) && sched(4) != Q.Refused)
      ensures ok <==> FourAcked(sched) && sched(4) == Q.Acked
    {
      if sched(0) != Q.Acked || sched(1) != Q.Acked || sched(2) != Q.Acked || sched(3) != Q.Acked { return false; }
      hasTable := hasTable || sched(4) != Q.Refused;
      return sched(4) == Q.Acked;
    }

    /** One pass of the loop: is the entry recorded, and if not, its transaction. So far the first m of
        todo ran over the database d. */
    method ApplyEntry(exec: Script<S>, name: string, sched: nat -> Q.Outcome, k: nat,
                      ghost d: Db<S>, ghost todo: seq<string>, ghost m: nat)
      returns (r: Result<(), ApplyError>, ghost m': nat)
      requires hasTable && m <= |todo| && Ran(exec, d, todo[..m], St())
      requires name !in applied ==> m < |todo| && todo[m] == name
      modifies this
      ensures hasTable && m' <= |todo| && Ran(exec, d, todo[..m'], St())
      ensures r.Ok? ==> m' == if name in old(applied) then m else m + 1
      ensures r.Err? && r.error.ScriptFailed? ==> FailsAt(exec, todo, m', schema, r.error.name)
      ensures (forall i :: sched(i) == Q.Acked) ==> r != Err(CallFailed) && (Fold(exec, todo, d.schema).Some? ==> r.Ok?)
    {
      m' := m;
      if sched(k) != Q.Acked { return Err(CallFailed), m; }
      if name in applied { return Ok(()), m; }
      assert todo[..m + 1] == todo[..m] + [name] && todo[..m + 1][..m] == todo[..m];
      FoldStops(exec, todo, m + 1, d.schema);
      var committed;
      r, committed := ApplyOne(exec, name, sched(k + 1), sched(k + 2), sched(k + 3), sched(k + 4));
      if committed {
        RanOne(exec, d, todo[..m], old(St()), name, St());
        m' := m + 1;
      }
    }

    /** The loop over the sorted entries. */
    method ApplyEntries(exec: Script<S>, list: seq<string>, sched: nat -> Q.Outcome)
      returns (r: Result<(), ApplyError>, ghost m: nat)
      requires Sorted(list) && hasTable
      modifies this
      ensures Leaves(exec, list, old(St()), St(), m)
      ensures r.Ok? ==> Complete(list, old(St()), m)
      ensures r.Err? && r.error.ScriptFailed? ==> FailsAt(exec, Missing(list, old(applied)), m, schema, r.error.name)
      ensures (forall k :: sched(k) == Q.Acked) ==>
                r != Err(CallFailed) && (Fold(exec, Missing(list, old(applied)), old(schema)).Some? ==> r.Ok?)
    {
      m := 0;
      ghost var todo := Missing(list, applied);
      for i := 0 to |list|
        invariant hasTable && m <= |todo| && Missing(list[..i], old(applied)) == todo[..m]
        invariant Ran(exec, old(St()), todo[..m], St())
      {
        NextMissing(list, old(applied), i);
        r, m := ApplyEntry(exec, list[i], sched, 5 * i + 5, old(St()), todo, m);
        if r.Err? { return r, m; }
      }
      assert list[..|list|] == list;
      return Ok(()), m;
    }

    /** Apply; sched says how each database call ends, five of them kept for an entry. A process that dies
        between two calls leaves what a refusal of the second one leaves. */
    method Apply(exec: Script<S>, dir: seq<DirEntry>, sched: nat -> Q.Outcome)
      returns (r: Result<(), ApplyError>, ghost list: seq<string>, ghost m: nat)
      requires IsListing(dir)
      modifies this
      ensures Sorted(list) && forall n :: n in list <==> Lists(dir, n)
      ensures Leaves(exec, list, old(St()), St(), m)
      ensures r.Ok? ==> Complete(list, old(St()), m) && hasTable
      ensures hasTable <==> old(hasTable) || (FourAcked(sched) && sched(4) != Q.Refused)
      ensures r.Err? && r.error.ScriptFailed? ==> FailsAt(exec, Missing(list, old(applied)), m, schema, r.error.name)
      ensures (forall k :: sched(k) == Q.Acked) ==>
                r != Err(CallFailed) && (Fold(exec, Missing(list, old(applied)), old(schema)).Some? ==> r.Ok?)
    {
      var entries := MigrationEntries(dir);
      list, m := entries, 0;
      var ok := Prepare(sched);
      if !ok { return Err(CallFailed), list, m; }
      r, m := ApplyEntries(exec, entries, sched);
    }

    /** The rows of schema_migrations in the order the query returns them, which depends on the collation
        of the database. */
    method AppliedVersions() returns (versions: seq<string>)
      ensures Names(versions) == applied
    {
      versions := [];
      var rest := applied;
      while rest != {}
        invariant rest <= applied && Names(versions) == applied - rest
      {
        var v :| v in rest;
        assert Names(versions + [v]) == Names(versions) + {v};
        versions := versions + [v];
        rest := rest - {v};
      }
    }

    /** Accepts exactly a database with the expected versions; one version it does not know makes it
        ahead, whatever else is missing; otherwise the missing versions are reported in order. */
    method EnsureCompatible(expected: seq<string>) returns (r: Compatibility)
      ensures r.Uninitialized? <==> !hasTable
      ensures hasTable ==> (r.Compatible? <==> applied == Names(expected))
      ensures hasTable ==> (r.Ahead? <==> !(applied <= Names(expected)))
      ensures r.Ahead? ==> r.version in applied && r.version !in expected
      ensures hasTable ==> (r.Behind? <==> applied < Names(expected))
      ensures r.Behind? ==> r.missing == Missing(expected, applied)
    {
      if !hasTable { return Uninitialized; }
      var versions := AppliedVersions();
      var expectedSet := {};
      for i := 0 to |expected|
        invariant expectedSet == Names(expected[..i])
      {
        expectedSet := expectedSet + {expected[i]};
      }
      assert expected[..|expected|] == expected;
      assert Names(versions) == applied;
      var appliedSet := {};
      for i := 0 to |versions|
        invariant appliedSet == Names(versions[..i]) && appliedSet <= expectedSet
      {
        appliedSet := appliedSet + {versions[i]};
        assert versions[i] in Names(versions);
        if versions[i] !in expectedSet { return Ahead(versions[i]); }
      }
      assert versions[..|versions|] == versions;
      var missing := [];
      for i := 0 to |expected|
        invariant missing == Missing(expected[..i], applied)
      {
        assert expected[..i + 1][..i] == expected[..i];
        if expected[i] !in appliedSet { missing := missing + [expected[i]]; }
      }
      MissingIff(expected, applied);
      if |missing| > 0 { return Behind(missing); }
      return Compatible;
    }
  }

  lemma MissingIff(expected: seq<string>, applied: set<string>)
    ensures Missing(expected, applied) == [] <==> Names(expected) <= applied
  {
    var missing := Missing(expected, applied);
    if missing == [] {
      forall n | n in Names(expected) ensures n in applied { MissingIn(expected, applied, n); }
    } else {
      MissingIn(expected, applied, missing[0]);
      assert missing[0] in Names(expected);
    }
  }

  /** A list of scripts runs through only if every prefix does. */
  lemma {:induction false} FoldStops<S>(exec: Script<S>, scripts: seq<string>, i: nat, schema: S)
    ensures i <= |scripts| && Fold(exec, scripts, schema).Some? ==> Fold(exec, scripts[..i], schema).Some?
  {
    if i < |scripts| {
      FoldStops(exec, scripts[..|scripts| - 1], i, schema);
      assert scripts[..|scripts| - 1][..i] == scripts[..i];
    } else if i == |scripts| {
      assert scripts[..i] == scripts;
    }
  }

  // ----- Any number of interrupted runs -----

  /** Recorded is what ran, nothing ran twice, and the schema is what running it in that order makes. */
  ghost predicate DbOk<S>(exec: Script<S>, empty: S, d: Db<S>) {
    Distinct(d.history) && d.applied == Names(d.history) && Fold(exec, d.history, empty) == Some(d.schema)
  }

  lemma {:induction false} FoldConcat<S>(exec: Script<S>, a: seq<string>, b: seq<string>, schema: S)
    requires Fold(exec, a, schema).Some?
    ensures Fold(exec, a + b, schema) == Fold(exec, b, Fold(exec, a, schema).value)
  {
    if b == [] {
      assert a + b == a;
    } else {
      assert (a + b)[..|a + b| - 1] == a + b[..|b| - 1];
      FoldConcat(exec, a, b[..|b| - 1], schema);
    }
  }

  lemma {:induction false} MissingDistinct(list: seq<string>, applied: set<string>)
    requires Distinct(list)
    ensures Distinct(Missing(list, applied))
  {
    if list != [] {
      MissingDistinct(list[..|list| - 1], applied);
      MissingIn(list[..|list| - 1], applied, list[|list| - 1]);
    }
  }

  lemma AppendDistinct(a: seq<string>, b: seq<string>)
    requires Distinct(a) && Distinct(b) && forall n <- b :: n !in a
    ensures Distinct(a + b)
  {
    forall i, j | 0 <= i < j < |a + b| ensures (a + b)[i] != (a + b)[j] {
      if i < |a| <= j { assert b[j - |a|] in b; }
    }
  }

  /** Whatever list the binary carries and wherever its Apply stopped. */
  lemma ApplyKeepsDb<S>(exec: Script<S>, empty: S, list: seq<string>, d: Db<S>, d': Db<S>, m: nat)
    requires Sorted(list) && DbOk(exec, empty, d) && Leaves(exec, list, d, d', m)
    ensures DbOk(exec, empty, d')
  {
    var ran := Missing(list, d.applied)[..m];
    SortedDistinct(list);
    MissingDistinct(list, d.applied);
    forall n | n in ran ensures n !in d.history {
      assert n in Missing(list, d.applied);
      MissingIn(list, d.applied, n);
    }
    AppendDistinct(d.history, ran);
    FoldConcat(exec, d.history, ran, empty);
    assert Names(d.history + ran) == Names(d.history) + Names(ran);
  }

  /** The databases a series of Apply runs leaves, the i-th run by a binary that carries lists[i]. */
  ghost predicate Runs<S>(exec: Script<S>, lists: seq<seq<string>>, dbs: seq<Db<S>>, ms: seq<nat>) {
    && |dbs| == |lists| + 1 && |ms| == |lists|
    && forall i :: 0 <= i < |lists| ==> Sorted(lists[i]) && Leaves(exec, lists[i], dbs[i], dbs[i + 1], ms[i])
  }

  /** Under any sequence of Apply runs, each interrupted anywhere, by binaries with any lists: every
      script commits at most once, the record is exact, and the schema is the fold of the history. */
  lemma {:induction false} EveryRunKeepsDb<S>(exec: Script<S>, empty: S, lists: seq<seq<string>>,
                                                dbs: seq<Db<S>>, ms: seq<nat>, n: nat)
    requires Runs(exec, lists, dbs, ms) && dbs[0] == Db(false, {}, empty, []) && n <= |lists|
    ensures DbOk(exec, empty, dbs[n])
  {
    if n > 0 {
      EveryRunKeepsDb(exec, empty, lists, dbs, ms, n - 1);
      ApplyKeepsDb(exec, empty, lists[n - 1], dbs[n - 1], dbs[n], ms[n - 1]);
    }
  }

  lemma {:induction false} MissingAfterPrefix(list: seq<string>, k: nat)
    requires Distinct(list) && k <= |list|
    ensures Missing(list, Names(list[..k])) == list[k..]
  {
    if k == |list| {
      assert list[..k] == list;
      NothingMissing(list, Names(list));
    } else {
      var rest := list[..|list| - 1];
      MissingAfterPrefix(rest, k);
      assert rest[..k] == list[..k] && rest[k..] + [list[|list| - 1]] == list[k..];
      assert list[|list| - 1] !in list[..k];
    }
  }

  lemma NothingMissing(list: seq<string>, applied: set<string>)
    requires Names(list) <= applied
    ensures Missing(list, applied) == []
  {
    MissingIff(list, applied);
  }

  /** A database whose history is a prefix of the list keeps being one. */
  lemma ApplyExtendsPrefix<S>(exec: Script<S>, list: seq<string>, d: Db<S>, d': Db<S>, m: nat)
    requires Sorted(list) && d.history <= list && d.applied == Names(d.history) && Leaves(exec, list, d, d', m)
    ensures d'.history <= list && d'.applied == Names(d'.history)
    ensures Complete(list, d, m) ==> d'.history == list
  {
    var k := |d.history|;
    SortedDistinct(list);
    MissingAfterPrefix(list, k);
    assert d.history == list[..k] && list[..k] + list[k..] == list;
    assert list[..k] + list[k..][..m] == list[..k + m];
    assert Names(d.history + list[k..][..m]) == Names(d.history) + Names(list[k..][..m]);
  }

  /** Every later list extends the earlier ones. */
  predicate AppendOnly(lists: seq<seq<string>>) {
    forall i, j :: 0 <= i <= j < |lists| ==> lists[i] <= lists[j]
  }

  /** From an empty database, with an append-only list, however often Apply was interrupted: what ran is a
      prefix of the list, in its order; a completed run reaches the whole list, is accepted by
      EnsureCompatible, and leaves a further run nothing to do. */
  lemma {:induction false} CrashRestart<S>(exec: Script<S>, empty: S, lists: seq<seq<string>>, dbs: seq<Db<S>>, ms: seq<nat>,
                                           n: nat)
    requires Runs(exec, lists, dbs, ms) && dbs[0] == Db(false, {}, empty, []) && AppendOnly(lists) && 1 <= n <= |lists|
    ensures dbs[n].history <= lists[n - 1] && dbs[n].applied == Names(dbs[n].history)
    ensures Fold(exec, dbs[n].history, empty) == Some(dbs[n].schema)
    ensures Complete(lists[n - 1], dbs[n - 1], ms[n - 1]) ==>
              dbs[n].history == lists[n - 1] && dbs[n].applied == Names(lists[n - 1])
              && Missing(lists[n - 1], dbs[n].applied) == []
  {
    EveryRunKeepsDb(exec, empty, lists, dbs, ms, n);
    if n > 1 {
      CrashRestart(exec, empty, lists, dbs, ms, n - 1);
      assert lists[n - 2] <= lists[n - 1];
    }
    ApplyExtendsPrefix(exec, lists[n - 1], dbs[n - 1], dbs[n], ms[n - 1]);
    if Complete(lists[n - 1], dbs[n - 1], ms[n - 1]) { NothingMissing(lists[n - 1], dbs[n].applied); }
  }

  // ----- Lists that grow in the middle -----

  /** Every name of the new list that the old one lacks sorts after all old names. */
  predicate AddsAtEnd(before: seq<string>, after: seq<string>) {
    forall n, o :: n in after && n !in before && o in before ==> Less(o, n)
  }

  lemma {:induction false} AddedAtEndIff(before: seq<string>, after: seq<string>)
    requires Sorted(before) && Sorted(after) && Names(before) <= Names(after)
    ensures before <= after <==> AddsAtEnd(before, after)
  {
    if before <= after {
      forall n, o | n in after && n !in before && o in before ensures Less(o, n) {
        var i :| 0 <= i < |after| && after[i] == n;
        var j :| 0 <= j < |before| && before[j] == o;
        assert before == after[..|before|];
      }
    }
    if AddsAtEnd(before, after) { AddedAtEnd(before, after); }
  }

  lemma {:induction false} AddedAtEnd(before: seq<string>, after: seq<string>)
    requires Sorted(before) && Sorted(after) && Names(before) <= Names(after) && AddsAtEnd(before, after)
    ensures before <= after
  {
    if before != [] {
      SmallestFirst(before, after);
      SortedDistinct(before);
      SortedDistinct(after);
      var b, a := before[1..], after[1..];
      assert before == [before[0]] + b && after == [before[0]] + a;
      forall n | n in Names(b) ensures n in Names(a) { assert n in Names(before); }
      AddedAtEnd(b, a);
    }
  }

  lemma SmallestFirst(before: seq<string>, after: seq<string>)
    requires Sorted(before) && Sorted(after) && Names(before) <= Names(after) && AddsAtEnd(before, after) && before != []
    ensures after != [] && after[0] == before[0]
  {
    assert before[0] in Names(before) && before[0] in after;
    var i :| 0 <= i < |after| && after[i] == before[0];
    if i > 0 {
      assert after[0] in after;
      LessIsStrict(after[0], before[0]);
    }
  }

  /** A binary whose list adds names to a fully applied one runs them after the old ones, so the scripts
      have run in the order of the new list exactly when every added name sorts after every old one.
      EnsureCompatible accepts the database either way. */
  lemma InListOrderIff<S>(exec: Script<S>, before: seq<string>, after: seq<string>, d: Db<S>, d': Db<S>, m: nat)
    requires Sorted(before) && Sorted(after) && Names(before) <= Names(after)
    requires d.history == before && d.applied == Names(before) && Leaves(exec, after, d, d', m) && Complete(after, d, m)
    ensures d'.history == after <==> AddsAtEnd(before, after)
    ensures d'.applied == Names(after)
  {
    AddedAtEndIff(before, after);
    var missing := Missing(after, d.applied);
    assert missing[..m] == missing;
    if before <= after {
      ApplyExtendsPrefix(exec, after, d, d', m);
    }
    forall n ensures n in d'.applied <==> n in after {
      MissingIn(after, d.applied, n);
      assert n in Names(before) ==> n in Names(after);
      assert n in Names(missing) <==> n in missing;
    }
  }

  const RELEASED: seq<string> := ["b.sql"]
  const NEXT_RELEASE: seq<string> := ["a.sql", "b.sql"]

  lemma NextReleaseSorted()
    ensures Sorted(RELEASED) && Sorted(NEXT_RELEASE) && !AddsAtEnd(RELEASED, NEXT_RELEASE)
    ensures Names(NEXT_RELEASE) == {"a.sql", "b.sql"} && Names(RELEASED) == {"b.sql"}
  {
    assert "a.sql"[0] < "b.sql"[0];
    assert Less("a.sql", "b.sql") && !Less("b.sql", "a.sql");
    assert "a.sql" in NEXT_RELEASE && "a.sql" !in RELEASED && "b.sql" in RELEASED;
  }

  /** A release adds a file that sorts before the one already applied. Both Apply runs complete; the scripts have
      run as ["b.sql", "a.sql"], which is not the order of the list, and the record is the list as a set, so
      EnsureCompatible accepts the database. */
  lemma RanOutOfOrder<S>(exec: Script<S>, empty: S) returns (dbs: seq<Db<S>>)
    requires Fold(exec, ["b.sql", "a.sql"], empty).Some?
    ensures Runs(exec, [RELEASED, NEXT_RELEASE], dbs, [1, 1]) && dbs[0] == Db(false, {}, empty, [])
    ensures Complete(RELEASED, dbs[0], 1) && Complete(NEXT_RELEASE, dbs[1], 1)
    ensures dbs[2].history == ["b.sql", "a.sql"] && dbs[2].history != NEXT_RELEASE && dbs[2].applied == Names(NEXT_RELEASE)
  {
    NextReleaseSorted();
    MissingThere();
    var d0 := Db(false, {}, empty, []);
    FoldTwo(exec, "b.sql", "a.sql", empty);
    var d1 := AppliesOne(exec, RELEASED, d0, "b.sql");
    assert d1.applied == {"b.sql"};
    var d2 := AppliesOne(exec, NEXT_RELEASE, d1, "a.sql");
    dbs := [d0, d1, d2];
    TwoRuns(exec, RELEASED, NEXT_RELEASE, d0, d1, d2);
  }

  lemma TwoRuns<S>(exec: Script<S>, a: seq<string>, b: seq<string>, d0: Db<S>, d1: Db<S>, d2: Db<S>)
    requires Sorted(a) && Sorted(b) && Leaves(exec, a, d0, d1, 1) && Leaves(exec, b, d1, d2, 1)
    ensures Runs(exec, [a, b], [d0, d1, d2], [1, 1])
  {}

  /** Apply with one script to run. */
  lemma AppliesOne<S>(exec: Script<S>, list: seq<string>, d: Db<S>, name: string) returns (d': Db<S>)
    requires Missing(list, d.applied) == [name] && exec(name, d.schema).Some?
    ensures Leaves(exec, list, d, d', 1) && Complete(list, d, 1)
    ensures d' == Db(true, d.applied + {name}, exec(name, d.schema).value, d.history + [name])
  {
    d' := Db(true, d.applied + {name}, exec(name, d.schema).value, d.history + [name]);
    assert [name][..1] == [name] && [name][..0] == [];
    assert Names([name]) == {name};
  }

  lemma FoldTwo<S>(exec: Script<S>, first: string, second: string, schema: S)
    requires Fold(exec, [first, second], schema).Some?
    ensures exec(first, schema).Some? && exec(second, exec(first, schema).value).Some?
  {
    assert [first, second][..1] == [first] && [first][..0] == [];
    assert Fold(exec, [first], schema) == exec(first, schema);
  }

  lemma MissingThere()
    ensures Missing(RELEASED, {}) == ["b.sql"] && Missing(NEXT_RELEASE, {"b.sql"}) == ["a.sql"]
  {
    assert RELEASED[..0] == [] && NEXT_RELEASE[..1] == ["a.sql"] && ["a.sql"][..0] == [];
  }

  /** After a completed Apply the database is accepted unless it was ahead before. */
  lemma AcceptedAfterApplyIff<S>(exec: Script<S>, list: seq<string>, d: Db<S>, d': Db<S>, m: nat)
    requires Leaves(exec, list, d, d', m) && Complete(list, d, m)
    ensures d'.applied == Names(list) <==> d.applied <= Names(list)
  {
    var missing := Missing(list, d.applied);
    assert missing[..m] == missing;
    forall n ensures n in d'.applied <==> n in d.applied || n in list {
      MissingIn(list, d.applied, n);
    }
    if d.applied <= Names(list) { assert forall n :: n in d'.applied <==> n in list; }
    if d'.applied == Names(list) {
      forall n | n in d.applied ensures n in Names(list) { assert n in d'.applied; }
    }
  }
}
