/**
 Schema migration (database-upgrade-rules.ts): planning over a release's migration chain, the check of a
 database's history, and migration transactions that may stop, repeat or arrive late.
 */
module Migration {
  import opened Common

  datatype Migration = Migration(id: string, from: int, to: int, file: string, checksum: string)

  datatype Release = Release(revision: int, schemaVersion: int, minimumSchemaVersion: int, migrations: seq<Migration>)

  datatype Receipt = Receipt(id: string, checksum: string)

  predicate IsSafe(n: int) { -MAX_SAFE <= n <= MAX_SAFE }

  predicate IsId(s: string) {
    s != "" && forall i :: 0 <= i < |s| ==> 'a' <= s[i] <= 'z' || '0' <= s[i] <= '9' || s[i] == '-'
  }

  /** The version the chain starts from. */
  function Baseline(t: Release): int {
    if t.migrations == [] then t.minimumSchemaVersion else t.migrations[0].from
  }

  predicate Versioned(t: Release) {
    && IsSafe(t.revision) && t.revision >= 1
    && IsSafe(t.minimumSchemaVersion) && t.minimumSchemaVersion >= 1
    && IsSafe(t.schemaVersion) && t.schemaVersion >= t.minimumSchemaVersion
    && IsSafe(Baseline(t)) && 1 <= Baseline(t) <= t.minimumSchemaVersion
  }

  /** One link at its place: consecutive versions, a well-formed name, its file and its checksum. */
  predicate IsLink(m: Migration, from: int) {
    IsId(m.id) && m.from == from && m.to == from + 1 && m.file == m.id + ".sql" && IsSha256Hex(m.checksum)
  }

  /** The chain leads from the baseline to the schema version in steps of one, with distinct names. */
  predicate IsChain(t: Release) {
    && (forall i :: 0 <= i < |t.migrations| ==> IsLink(t.migrations[i], Baseline(t) + i))
    && (forall i, j :: 0 <= i < j < |t.migrations| ==> t.migrations[i].id != t.migrations[j].id)
    && Baseline(t) + |t.migrations| == t.schemaVersion
  }

  predicate IsRelease(t: Release) { Versioned(t) && IsChain(t) }

  predicate Supports(t: Release, version: int) {
    IsSafe(version) && t.minimumSchemaVersion <= version <= t.schemaVersion
  }

  function Between(migrations: seq<Migration>, from: int, to: int): seq<Migration> {
    if migrations == [] then []
    else
      (if migrations[0].from >= from && migrations[0].to <= to then [migrations[0]] else [])
      + Between(migrations[1..], from, to)
  }

  /** What remains from a version on, or what lies between two versions, is a stretch of the chain. */
  lemma {:induction false} BetweenIsStretch(migrations: seq<Migration>, base: int, from: int, to: int)
    requires forall i :: 0 <= i < |migrations| ==> migrations[i].from == base + i && migrations[i].to == base + i + 1
    requires base <= from <= to <= base + |migrations|
    ensures Between(migrations, from, to) == migrations[from - base..to - base]
  {
    if migrations != [] {
      var rest := migrations[1..];
      if base < from {
        BetweenIsStretch(rest, base + 1, from, to);
        assert rest[from - base - 1..to - base - 1] == migrations[from - base..to - base];
      } else if to == base {
        NothingBetween(rest, base + 1, base, base);
      } else {
        FirstStays(migrations, base, to);
        NoneBefore(rest, base + 1, from, to);
        BetweenIsStretch(rest, base + 1, base + 1, to);
      }
    }
  }

  lemma FirstStays(migrations: seq<Migration>, base: int, to: int)
    requires migrations != [] && migrations[0].from == base && migrations[0].to == base + 1 <= to <= base + |migrations|
    ensures Between(migrations, base, to) == [migrations[0]] + Between(migrations[1..], base, to)
    ensures migrations[..to - base] == [migrations[0]] + migrations[1..][..to - base - 1]
  {
    assert migrations[..to - base] == [migrations[0]] + migrations[1..][..to - base - 1];
  }

  lemma {:induction false} NothingBetween(migrations: seq<Migration>, base: int, from: int, to: int)
    requires forall i :: 0 <= i < |migrations| ==> migrations[i].to == base + i + 1
    requires to <= base
    ensures Between(migrations, from, to) == []
  {
    if migrations != [] { NothingBetween(migrations[1..], base + 1, from, to); }
  }

  lemma {:induction false} NoneBefore(migrations: seq<Migration>, base: int, from: int, to: int)
    requires forall i :: 0 <= i < |migrations| ==> migrations[i].from == base + i
    requires from <= base
    ensures Between(migrations, from, to) == Between(migrations, base, to)
  {
    if migrations != [] {
      NoneBefore(migrations[1..], base + 1, from, to);
      NoneBefore(migrations[1..], base + 1, base, to);
    }
  }

  /** What remains of a release's chain from any version that it supports, and between two versions. */
  lemma RestOfChain(t: Release)
    requires IsRelease(t)
    ensures forall version :: Supports(t, version) ==>
      && 0 <= version - Baseline(t) <= |t.migrations|
      && Between(t.migrations, version, t.schemaVersion) == t.migrations[version - Baseline(t)..]
  {
    forall version | Supports(t, version)
      ensures 0 <= version - Baseline(t) <= |t.migrations|
      ensures Between(t.migrations, version, t.schemaVersion) == t.migrations[version - Baseline(t)..]
    {
      BetweenIsStretch(t.migrations, Baseline(t), version, t.schemaVersion);
    }
  }

  /** `planDatabaseUpgrade`: refused exactly for an invalid release or an unsupported version; otherwise the
      rest of the chain, or nothing for a database that does not exist yet. */
  method PlanDatabaseUpgrade(version: Option<int>, t: Release) returns (plan: Option<seq<Migration>>)
    ensures plan.Some? <==> IsRelease(t) && (version.Some? ==> Supports(t, version.value))
    ensures plan.Some? ==> plan.value == if version.None? then [] else t.migrations[version.value - Baseline(t)..]
  {
    if !IsSafe(t.revision) || t.revision < 1
      || !IsSafe(t.minimumSchemaVersion) || t.minimumSchemaVersion < 1
      || !IsSafe(t.schemaVersion) || t.schemaVersion < t.minimumSchemaVersion {
      return None;
    }
    var next := Baseline(t);
    if !IsSafe(next) || next < 1 || next > t.minimumSchemaVersion { return None; }
    var ids: set<string> := {};
    for n := 0 to |t.migrations|
      invariant next == Baseline(t) + n
      invariant forall i :: 0 <= i < n ==> IsLink(t.migrations[i], Baseline(t) + i) && t.migrations[i].id in ids
      invariant forall i, j :: 0 <= i < j < n ==> t.migrations[i].id != t.migrations[j].id
      invariant forall id :: id in ids ==> exists i :: 0 <= i < n && t.migrations[i].id == id
    {
      var m := t.migrations[n];
      if !IsId(m.id) || m.id in ids || m.from != next || m.to != next + 1 || m.file != m.id + ".sql"
        || !IsSha256Hex(m.checksum) {
        return None;
      }
      next, ids := m.to, ids + {m.id};
    }
    if next != t.schemaVersion { return None; }
    assert IsRelease(t);
    RestOfChain(t);
    hide IsRelease, IsLink, Between, Baseline;
    if version.None? { return Some([]); }
    if !Supports(t, version.value) { return None; }
    return Some(Between(t.migrations, version.value, t.schemaVersion));
  }

  // ---------- a database's history ----------

  function ReceiptOf(m: Migration): Receipt { Receipt(m.id, m.checksum) }

  function Receipts(migrations: seq<Migration>): (rs: seq<Receipt>)
    ensures |rs| == |migrations| && forall i :: 0 <= i < |rs| ==> rs[i] == ReceiptOf(migrations[i])
  {
    if migrations == [] then [] else [ReceiptOf(migrations[0])] + Receipts(migrations[1..])
  }

  /** The migrations that a database created at one version and now at another has gone through. */
  function Passed(t: Release, created: int, version: int): seq<Migration>
    requires IsRelease(t) && Baseline(t) <= created <= version <= t.schemaVersion
  {
    t.migrations[created - Baseline(t)..version - Baseline(t)]
  }

  /** A supported version, and the receipts of exactly the migrations it has gone through, in any order. */
  ghost predicate HistoryOk(version: int, created: int, receipts: seq<Receipt>, t: Release) {
    && IsRelease(t) && Supports(t, version) && IsSafe(created) && Baseline(t) <= created <= version
    && multiset(receipts) == multiset(Receipts(Passed(t, created, version)))
  }

  predicate DistinctReceipts(rs: seq<Receipt>) {
    forall i, j :: 0 <= i < j < |rs| ==> rs[i] != rs[j]
  }

  /** Without its element `k` a list holds everything else it held. */
  lemma WithoutOne(rs: seq<Receipt>, k: nat) returns (others: seq<Receipt>)
    requires k < |rs|
    ensures |others| == |rs| - 1 && multiset(rs) == multiset(others) + multiset{rs[k]}
    ensures forall x :: x in rs && x != rs[k] ==> x in others
  {
    others := rs[..k] + rs[k + 1..];
    assert rs == rs[..k] + [rs[k]] + rs[k + 1..];
  }

  /** As many receipts as expected, and each expected one among them: then they are the expected ones. */
  lemma {:induction false} Pigeonhole(expected: seq<Receipt>, receipts: seq<Receipt>)
    requires |expected| == |receipts| && DistinctReceipts(expected) && forall i :: 0 <= i < |expected| ==>
      expected[i] in receipts
    ensures multiset(expected) == multiset(receipts)
  {
    if expected != [] {
      var first, rest := expected[0], expected[1..];
      var k :| 0 <= k < |receipts| && receipts[k] == first;
      var others := WithoutOne(receipts, k);
      forall i | 0 <= i < |rest| ensures rest[i] in others {
        assert rest[i] == expected[i + 1];
        assert expected[i + 1] in receipts;
      }
      Pigeonhole(rest, others);
      assert expected == [first] + rest;
    }
  }

  lemma SameReceipts(expected: seq<Receipt>, receipts: seq<Receipt>)
    requires multiset(expected) == multiset(receipts)
    ensures |expected| == |receipts| && forall i :: 0 <= i < |expected| ==> expected[i] in receipts
  {
    assert |multiset(expected)| == |multiset(receipts)|;
    forall i | 0 <= i < |expected| ensures expected[i] in receipts { assert expected[i] in multiset(receipts); }
  }

  lemma PassedIsDistinct(t: Release, created: int, version: int)
    requires IsRelease(t) && Baseline(t) <= created <= version <= t.schemaVersion
    ensures DistinctReceipts(Receipts(Passed(t, created, version)))
  {
  }

  /** Counting and looking up decide whether the receipts are exactly the expected ones. */
  lemma CountingDecides(expected: seq<Receipt>, receipts: seq<Receipt>)
    requires DistinctReceipts(expected)
    ensures multiset(receipts) == multiset(expected) <==>
            |receipts| == |expected| && forall i :: 0 <= i < |expected| ==> expected[i] in receipts
  {
    if multiset(receipts) == multiset(expected) { SameReceipts(expected, receipts); }
    if |receipts| == |expected| && forall i :: 0 <= i < |expected| ==> expected[i] in receipts {
      Pigeonhole(expected, receipts);
    }
  }

  predicate AllReceived(names: seq<Receipt>, receipts: seq<Receipt>) {
    forall i :: 0 <= i < |names| ==> names[i] in receipts
  }

  /** What counting and looking up say about a history. */
  lemma CountedHistory(version: int, created: int, receipts: seq<Receipt>, t: Release)
    requires IsRelease(t) && Supports(t, version) && IsSafe(created) && Baseline(t) <= created <= version
    ensures Between(t.migrations, created, version) == Passed(t, created, version)
    ensures var names := Receipts(Passed(t, created, version));
      HistoryOk(version, created, receipts, t) <==> |receipts| == |names| && AllReceived(names, receipts)
  {
    BetweenIsStretch(t.migrations, Baseline(t), created, version);
    PassedIsDistinct(t, created, version);
    CountingDecides(Receipts(Passed(t, created, version)), receipts);
  }

  /** `validateMigrationHistory`, which compares the number of receipts and looks for each expected one. */
  method ValidateMigrationHistory(version: int, created: int, receipts: seq<Receipt>, t: Release) returns (valid: bool)
    ensures valid <==> HistoryOk(version, created, receipts, t)
  {
    hide IsRelease, Supports, Between, Receipts, Passed, Baseline, IsSafe;
    var plan := PlanDatabaseUpgrade(Some(version), t);
    if plan.None? { return false; }
    if !IsSafe(created) || created < Baseline(t) || created > version { return false; }
    var expected := Between(t.migrations, created, version);
    CountedHistory(version, created, receipts, t);
    hide HistoryOk;
    valid := HaveReceipts(expected, receipts);
  }

  /** As many receipts as migrations, and each migration's receipt among them. */
  method HaveReceipts(expected: seq<Migration>, receipts: seq<Receipt>) returns (found: bool)
    ensures found <==> |receipts| == |expected| && AllReceived(Receipts(expected), receipts)
  {
    if |receipts| != |expected| { return false; }
    ghost var names := Receipts(expected);
    for i := 0 to |expected|
      invariant forall j :: 0 <= j < i ==> names[j] in receipts
    {
      if ReceiptOf(expected[i]) !in receipts {
        assert names[i] == ReceiptOf(expected[i]);
        assert !AllReceived(names, receipts);
        return false;
      }
    }
    found := true;
  }

  // ---------- transactions ----------

  /** `applied` lists the migration bodies that have run. */
  datatype Database = Database(version: int, created: int, receipts: seq<Receipt>, applied: seq<Migration>)

  /** `migrationTransactionSql` runs as a whole or not at all: another source version, or a receipt that is
      already there, rolls it back. */
  function Transact(m: Migration, db: Database): Database {
    if db.version != m.from || (exists r :: r in db.receipts && r.id == m.id) then db
    else db.(version := m.to, receipts := db.receipts + [ReceiptOf(m)], applied := db.applied + [m])
  }

  /** A database whose history this release accepts, and whose data went through exactly that history. */
  ghost predicate Consistent(db: Database, t: Release) {
    && HistoryOk(db.version, db.created, db.receipts, t)
    && db.applied == Passed(t, db.created, db.version)
  }

  /** The link that leaves a version. */
  lemma LinkAt(m: Migration, t: Release) returns (j: nat)
    requires IsChain(t) && m in t.migrations
    ensures j < |t.migrations| && t.migrations[j] == m && m.from == Baseline(t) + j && m.to == m.from + 1
    ensures m.from < t.schemaVersion
  {
    j :| 0 <= j < |t.migrations| && t.migrations[j] == m;
    assert IsLink(t.migrations[j], Baseline(t) + j);
  }

  lemma NotPassed(t: Release, created: int, version: int, j: nat, k: nat)
    requires IsRelease(t) && Baseline(t) <= created <= version < t.schemaVersion
    requires j == version - Baseline(t) && k < |Passed(t, created, version)|
    ensures Receipts(Passed(t, created, version))[k].id != t.migrations[j].id
  {
    assert Passed(t, created, version)[k] == t.migrations[created - Baseline(t) + k];
  }

  lemma NotYetReceived(db: Database, t: Release, m: Migration)
    requires Consistent(db, t) && m in t.migrations && db.version == m.from
    ensures !exists r :: r in db.receipts && r.id == m.id
  {
    var j := LinkAt(m, t);
    var passed := Passed(t, db.created, db.version);
    var expected := Receipts(passed);
    SameReceipts(db.receipts, expected);
    hide Passed, IsSha256Hex, IsId, Versioned;
    forall r | r in db.receipts ensures r.id != m.id {
      assert r in multiset(expected);
      var k :| 0 <= k < |expected| && expected[k] == r;
      NotPassed(t, db.created, db.version, j, k);
    }
  }

  lemma SliceGrows(ms: seq<Migration>, i: nat, j: nat)
    requires i <= j < |ms|
    ensures ms[i..j + 1] == ms[i..j] + [ms[j]]
  {
  }

  lemma ReceiptsGrow(ms: seq<Migration>, m: Migration)
    ensures Receipts(ms + [m]) == Receipts(ms) + [ReceiptOf(m)]
  {
  }

  lemma PassedGrows(t: Release, created: int, version: int, m: Migration)
    requires IsRelease(t) && Baseline(t) <= created <= version < t.schemaVersion
    requires m == t.migrations[version - Baseline(t)]
    ensures Passed(t, created, version + 1) == Passed(t, created, version) + [m]
    ensures Receipts(Passed(t, created, version + 1)) == Receipts(Passed(t, created, version)) + [ReceiptOf(m)]
  {
    SliceGrows(t.migrations, created - Baseline(t), version - Baseline(t));
    ReceiptsGrow(Passed(t, created, version), m);
  }

  /** The next migration runs. */
  lemma NextKeeps(m: Migration, db: Database, t: Release, j: nat)
    requires Consistent(db, t) && j < |t.migrations| && t.migrations[j] == m
    requires db.version == m.from == Baseline(t) + j && m.to == m.from + 1 && m.from < t.schemaVersion
    ensures Consistent(db.(version := m.to, receipts := db.receipts + [ReceiptOf(m)], applied := db.applied + [m]), t)
  {
    PassedGrows(t, db.created, db.version, m);
    hide Passed, IsChain, Receipts, ReceiptOf;
  }

  /** Any migration of the chain, in turn or not, keeps the database consistent; only the next one has an
      effect, and it moves the version by one. */
  lemma TransactKeeps(m: Migration, db: Database, t: Release)
    requires Consistent(db, t) && m in t.migrations
    ensures Consistent(Transact(m, db), t)
    ensures Transact(m, db).version == if m.from == db.version then db.version + 1 else db.version
  {
    var j := LinkAt(m, t);
    hide Consistent, IsChain;
    if db.version == m.from {
      NotYetReceived(db, t, m);
      NextKeeps(m, db, t, j);
    }
  }

  function TransactAll(ms: seq<Migration>, db: Database): Database {
    if ms == [] then db else Transact(ms[|ms| - 1], TransactAll(ms[..|ms| - 1], db))
  }

  /** Each migration has at most one receipt. */
  predicate OneReceiptEach(rs: seq<Receipt>) {
    forall i, j :: 0 <= i < j < |rs| ==> rs[i].id != rs[j].id
  }

  /** Whatever a database holds and whatever is sent to it: a migration with a receipt never runs again, and no
      migration leaves a second receipt. */
  lemma {:induction false} ReceiptsGuard(ms: seq<Migration>, db: Database)
    requires OneReceiptEach(db.receipts)
    ensures var db' := TransactAll(ms, db);
      && OneReceiptEach(db'.receipts) && db.receipts <= db'.receipts && db.applied <= db'.applied
      && db'.receipts[|db.receipts|..] == Receipts(db'.applied[|db.applied|..])
  {
    if ms == [] {
      assert Receipts([]) == [];
    } else {
      var m, db1 := ms[|ms| - 1], TransactAll(ms[..|ms| - 1], db);
      ReceiptsGuard(ms[..|ms| - 1], db);
      hide TransactAll;
      if Transact(m, db1) != db1 {
        assert (db1.applied + [m])[|db.applied|..] == db1.applied[|db.applied|..] + [m];
      }
    }
  }

  /** Whatever transactions run, repeat or arrive late, the history stays valid, every migration runs at most
      once and in order, and the version neither skips nor goes back. */
  lemma {:induction false} HistoryStaysValid(ms: seq<Migration>, db: Database, t: Release)
    requires Consistent(db, t) && forall i :: 0 <= i < |ms| ==> ms[i] in t.migrations
    ensures Consistent(TransactAll(ms, db), t)
    ensures db.version <= TransactAll(ms, db).version <= db.version + |ms|
  {
    hide Consistent, Transact;
    if ms != [] {
      HistoryStaysValid(ms[..|ms| - 1], db, t);
      TransactKeeps(ms[|ms| - 1], TransactAll(ms[..|ms| - 1], db), t);
    }
  }

  /** Re-planning from any version that is reached leads to the target with exactly the expected receipts. */
  lemma {:induction false} ReplanReaches(db: Database, t: Release, n: nat)
    requires Consistent(db, t) && n <= t.schemaVersion - db.version
    ensures var plan := t.migrations[db.version - Baseline(t)..][..n];
      Consistent(TransactAll(plan, db), t) && TransactAll(plan, db).version == db.version + n
  {
    if n > 0 {
      ReplanReaches(db, t, n - 1);
      var plan := t.migrations[db.version - Baseline(t)..];
      assert plan[..n][..n - 1] == plan[..n - 1];
      var m := plan[n - 1];
      var j := db.version - Baseline(t) + n - 1;
      assert m == t.migrations[j];
      assert IsLink(t.migrations[j], Baseline(t) + j);
      hide Consistent, IsRelease, IsLink, Transact;
      TransactKeeps(m, TransactAll(plan[..n - 1], db), t);
    }
  }

  // ---------- one attempt ----------

  datatype Outcome = Stopped | Refused | Upgraded

  class Server {
    const release: Release
    var db: Database

    ghost predicate Valid()
      reads this
    {
      Consistent(db, release)
    }

    constructor (release: Release, db: Database)
      requires Consistent(db, release)
      ensures Valid() && this.release == release && this.db == db
    {
      this.release, this.db := release, db;
    }

    /** Earlier transactions that arrive now. */
    method Arrive(late: seq<Migration>)
      requires Valid() && forall i :: 0 <= i < |late| ==> late[i] in release.migrations
      modifies this
      ensures Valid() && old(db).version <= db.version && db.created == old(db).created
      ensures late == [] ==> db == old(db)
    {
      hide Consistent, Transact;
      for n := 0 to |late|
        invariant Valid() && old(db).version <= db.version && db.created == old(db).created
        invariant n == 0 ==> db == old(db)
      {
        TransactKeeps(late[n], db, release);
        CreatedStays(late[n], db);
        db := Transact(late[n], db);
      }
    }

    /** `prepareDeploymentDatabase`: it plans from the version it reads and runs one transaction after
        another; before each, earlier ones may arrive, and it stops at one that fails or after `calls` calls. */
    method Upgrade(calls: nat, late: nat -> seq<Migration>) returns (outcome: Outcome)
      requires Valid() && forall n, i :: 0 <= i < |late(n)| ==> late(n)[i] in release.migrations
      modifies this
      ensures Valid() && old(db).version <= db.version && outcome != Refused
      ensures outcome == Upgraded ==>
        && db.version == release.schemaVersion
        && multiset(db.receipts) == multiset(Receipts(Passed(release, db.created, release.schemaVersion)))
        && db.applied == Passed(release, db.created, release.schemaVersion)
      ensures (forall n :: late(n) == []) && calls >= release.schemaVersion - old(db).version ==> outcome == Upgraded
    {
      var version := db.version;
      var plan := PlanDatabaseUpgrade(Some(version), release);
      if plan.None? { return Refused; }
      for n := 0 to |plan.value|
        invariant Valid() && old(db).version <= db.version && (n > 0 ==> db.version >= version + n)
        invariant (forall k :: late(k) == []) ==> db.version == version + n
      {
        if n == calls { return Stopped; }
        Arrive(late(n));
        var m := plan.value[n];
        assert m == release.migrations[version - Baseline(release) + n];
        assert IsLink(m, version + n);
        if db.version != m.from { return Stopped; }
        TransactKeeps(m, db, release);
        db := Transact(m, db);
      }
      outcome := Upgraded;
    }
  }

  lemma CreatedStays(m: Migration, db: Database)
    ensures Transact(m, db).created == db.created
  {
  }
}
