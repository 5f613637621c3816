/**
 The resumable export of a paused database (upgrade-checkpoint.ts, `tablePages`, `saveProgress` and
 `dumpDatabase`). A process may stop at any remote call; the saved progress and the stored parts survive.
 */
module UpgradeExport {
  import opened Common

  const PAGE_ROWS := 500
  const PART_CHARACTERS := 4 * 1024 * 1024
  const HEADER := "PRAGMA foreign_keys=OFF;\n"

  /** A primary key as its place in scan order. Every countable total order, and so that of composite keys of
      numbers and texts, embeds in this one. */
  type Key = real

  /** A row's key and its INSERT statement with the line break. */
  datatype Row = Row(key: Key, sql: string)

  /** `guarded` tables are paused by write guards; control tables stay writable. */
  datatype Table = Table(definition: string, guarded: bool)

  datatype Progress =
    | Copying
    | Dumping(parts: seq<string>, table: nat, after: Option<Key>)
    | Finishing(parts: seq<string>)

  ghost predicate Sorted(rows: seq<Row>) {
    forall i, j :: 0 <= i < j < |rows| ==> rows[i].key < rows[j].key
  }

  // ---------- keyset pages ----------

  /** The rows behind a key. */
  function Behind(rows: seq<Row>, after: Option<Key>): seq<Row> {
    if rows == [] then []
    else if after.Some? && rows[0].key <= after.value then Behind(rows[1..], after)
    else [rows[0]] + Behind(rows[1..], after)
  }

  /** One page query. */
  function Page(rows: seq<Row>, after: Option<Key>): seq<Row> {
    var behind := Behind(rows, after);
    if |behind| > PAGE_ROWS then behind[..PAGE_ROWS] else behind
  }

  lemma {:induction false} BehindSorted(rows: seq<Row>, after: Option<Key>) returns (n: nat)
    requires Sorted(rows)
    ensures n <= |rows| && Behind(rows, after) == rows[n..]
    ensures forall i :: 0 <= i < n ==> after.Some? && rows[i].key <= after.value
    ensures forall i :: n <= i < |rows| ==> after.None? || rows[i].key > after.value
  {
    if rows == [] {
      n := 0;
    } else if after.Some? && rows[0].key <= after.value {
      var m := BehindSorted(rows[1..], after);
      assert forall i :: 1 <= i < |rows| ==> rows[i] == rows[1..][i - 1];
      n := m + 1;
    } else {
      KeepsAll(rows, after);
      n := 0;
    }
  }

  lemma {:induction false} KeepsAll(rows: seq<Row>, after: Option<Key>)
    requires forall i :: 0 <= i < |rows| ==> after.None? || rows[i].key > after.value
    ensures Behind(rows, after) == rows
  {
    if rows != [] { KeepsAll(rows[1..], after); }
  }

  // ---------- text ----------

  function Statements(rows: seq<Row>): string {
    if rows == [] then "" else Statements(rows[..|rows| - 1]) + rows[|rows| - 1].sql
  }

  function TablesText(tables: seq<Table>, exported: seq<seq<Row>>): string
    requires |exported| <= |tables|
  {
    if exported == [] then ""
    else
      var n := |exported| - 1;
      TablesText(tables, exported[..n]) + tables[n].definition + ";\n" + Statements(exported[n])
  }

  lemma {:induction false} StatementsConcat(a: seq<Row>, b: seq<Row>)
    ensures Statements(a + b) == Statements(a) + Statements(b)
    decreases |b|
  {
    if b == [] {
      assert a + b == a;
    } else {
      StatementsConcat(a, b[..|b| - 1]);
      assert (a + b)[..|a + b| - 1] == a + b[..|b| - 1];
    }
  }

  /** Reading another page of the table being exported. */
  lemma PageText(tables: seq<Table>, exported: seq<seq<Row>>, page: seq<Row>)
    requires 0 < |exported| <= |tables|
    ensures var n := |exported| - 1;
      TablesText(tables, exported[n := exported[n] + page]) == TablesText(tables, exported) + Statements(page)
  {
    var n := |exported| - 1;
    var more := exported[n := exported[n] + page];
    assert more[..n] == exported[..n];
    StatementsConcat(exported[n], page);
    assert TablesText(tables, more) == TablesText(tables, exported[..n]) + tables[n].definition + ";\n"
      + (Statements(exported[n]) + Statements(page));
  }

  /** Beginning the next table. */
  lemma DefinitionText(tables: seq<Table>, exported: seq<seq<Row>>)
    requires |exported| < |tables|
    ensures TablesText(tables, exported + [[]]) ==
      TablesText(tables, exported) + (tables[|exported|].definition + ";\n")
  {
    var more := exported + [[]];
    assert more[..|exported|] == exported;
    assert Statements([]) == "";
  }

  // ---------- what has been exported ----------

  /** `contents(t, i)` is table `i` at time `t`; guarded tables do not change while they are paused. */
  ghost predicate Paused(tables: seq<Table>, contents: (nat, nat) -> seq<Row>) {
    && (forall t: nat, i: nat :: Sorted(contents(t, i)))
    && (forall t: nat, i: nat :: i < |tables| && tables[i].guarded ==> contents(t, i) == contents(0, i))
  }

  /** The exported rows of one table up to a key, or all of them: in key order, each read from the table, and
      for a guarded table exactly its rows. */
  ghost predicate Exported(tables: seq<Table>, contents: (nat, nat) -> seq<Row>, i: nat, rows: seq<Row>,
    upto: Option<Key>)
    requires i < |tables|
  {
    && Sorted(rows)
    && (upto.Some? ==> forall k :: 0 <= k < |rows| ==> rows[k].key <= upto.value)
    && ReadFrom(contents, i, rows)
    && (tables[i].guarded ==>
          && rows <= contents(0, i)
          && (if upto.None? then rows == contents(0, i)
              else forall k :: |rows| <= k < |contents(0, i)| ==> contents(0, i)[k].key > upto.value))
  }

  /** A saved text covers exactly the first `table` tables, and table `table` up to `after`. */
  ghost predicate Covers(tables: seq<Table>, contents: (nat, nat) -> seq<Row>, text: string, table: nat,
                         after: Option<Key>, exported: seq<seq<Row>>)
  {
    && |exported| == (if after.Some? then table + 1 else table) <= |tables|
    && (forall i :: 0 <= i < table ==> Exported(tables, contents, i, exported[i], None))
    && (after.Some? ==> Exported(tables, contents, table, exported[table], after))
    && text == HEADER + TablesText(tables, exported)
  }

  /** A finished text: every table in full, then the indexes and sequences. */
  ghost predicate Finished(tables: seq<Table>, contents: (nat, nat) -> seq<Row>, tail: string, text: string,
    exported: seq<seq<Row>>) {
    && |exported| == |tables|
    && (forall i :: 0 <= i < |tables| ==> Exported(tables, contents, i, exported[i], None))
    && text == HEADER + TablesText(tables, exported) + tail
  }

  /** The export in one pass over the paused tables. */
  function OnePass(tables: seq<Table>, contents: (nat, nat) -> seq<Row>, tail: string): string {
    HEADER + TablesText(tables, seq(|tables|, i requires 0 <= i => contents(0, i))) + tail
  }

  function Concat(objects: map<string, string>, parts: seq<string>): string {
    if parts == [] then ""
    else
      var last := parts[|parts| - 1];
      Concat(objects, parts[..|parts| - 1]) + (if last in objects then objects[last] else "")
  }

  /** Storing further objects does not change what the saved parts say. */
  lemma {:induction false} ConcatKeeps(objects: map<string, string>, key: string, content: string, parts: seq<string>)
    requires forall p :: p in parts ==> p in objects
    requires key in objects ==> objects[key] == content
    ensures Concat(objects[key := content], parts) == Concat(objects, parts)
  {
    if parts != [] {
      var last := parts[|parts| - 1];
      assert last in parts;
      ConcatKeeps(objects, key, content, parts[..|parts| - 1]);
    }
  }

  ghost predicate Injective(sha256: string -> string) {
    forall a, b :: sha256(a) == sha256(b) ==> a == b
  }

  // ---------- one page further ----------

  lemma PageOfGuarded(all: seq<Row>, rows: seq<Row>, after: Option<Key>) returns (n: nat)
    requires Sorted(all)
    ensures n + |Page(all, after)| <= |all| && Page(all, after) == all[n..n + |Page(all, after)|]
    ensures |Page(all, after)| < PAGE_ROWS ==> n + |Page(all, after)| == |all|
    ensures forall i :: n <= i < |all| ==> after.None? || all[i].key > after.value
    ensures forall i :: 0 <= i < n ==> after.Some? && all[i].key <= after.value
  {
    n := BehindSorted(all, after);
  }

  lemma AppendSorted(rows: seq<Row>, page: seq<Row>, after: Option<Key>)
    requires Sorted(rows) && Sorted(page)
    requires forall k :: 0 <= k < |rows| ==> after.Some? && rows[k].key <= after.value
    requires forall k :: 0 <= k < |page| ==> after.None? || page[k].key > after.value
    ensures Sorted(rows + page)
  {
  }

  lemma ReadFromConcat(contents: (nat, nat) -> seq<Row>, i: nat, a: seq<Row>, b: seq<Row>)
    requires ReadFrom(contents, i, a) && ReadFrom(contents, i, b)
    ensures ReadFrom(contents, i, a + b)
  {
  }

  lemma SameCut(all: seq<Row>, rows: seq<Row>, after: Key, n: nat)
    requires rows <= all && n <= |all|
    requires forall k :: 0 <= k < |rows| ==> all[k].key <= after
    requires forall k :: |rows| <= k < |all| ==> all[k].key > after
    requires forall k :: 0 <= k < n ==> all[k].key <= after
    requires forall k :: n <= k < |all| ==> all[k].key > after
    ensures rows == all[..n]
  {
    var k := if |rows| < n then |rows| else n;
    if k < |all| {
      var key := all[k].key;
      assert k < |rows| <==> key <= after;
      assert k < n <==> key <= after;
    }
  }

  ghost predicate ReadFrom(contents: (nat, nat) -> seq<Row>, i: nat, rows: seq<Row>) {
    forall k :: 0 <= k < |rows| ==> WasIn(contents, i, rows[k])
  }

  ghost predicate WasIn(contents: (nat, nat) -> seq<Row>, i: nat, row: Row) {
    exists t: nat :: row in contents(t, i)
  }

  lemma PageReadFrom(contents: (nat, nat) -> seq<Row>, time: nat, i: nat, page: seq<Row>, n: nat)
    requires n + |page| <= |contents(time, i)| && page == contents(time, i)[n..n + |page|]
    ensures ReadFrom(contents, i, page)
  {
    forall k | 0 <= k < |page| ensures WasIn(contents, i, page[k]) {
      assert page[k] == contents(time, i)[n + k];
      assert page[k] in contents(time, i);
    }
  }

  lemma GuardedCut(all: seq<Row>, rows: seq<Row>, after: Option<Key>, n: nat, page: seq<Row>)
    requires n + |page| <= |all| && page == all[n..n + |page|]
    requires after.None? ==> rows == [] && n == 0
    requires after.Some? ==>
      && rows <= all && (forall k :: 0 <= k < |rows| ==> rows[k].key <= after.value)
      && (forall k :: |rows| <= k < |all| ==> all[k].key > after.value)
      && (forall k :: 0 <= k < n ==> all[k].key <= after.value)
      && (forall k :: n <= k < |all| ==> all[k].key > after.value)
    ensures rows + page == all[..n + |page|]
  {
    if after.Some? {
      assert forall k :: 0 <= k < |rows| ==> rows[k] == all[k];
      SameCut(all, rows, after.value, n);
    }
    assert rows == all[..n];
  }

  lemma PageSorted(all: seq<Row>, page: seq<Row>, n: nat)
    requires Sorted(all) && n + |page| <= |all| && page == all[n..n + |page|]
    ensures Sorted(page)
    ensures page != [] ==> forall k :: n + |page| <= k < |all| ==> all[k].key > page[|page| - 1].key
  {
  }

  lemma CutExtends(tables: seq<Table>, contents: (nat, nat) -> seq<Row>, time: nat, i: nat, rows: seq<Row>,
                   after: Option<Key>, page: seq<Row>, n: nat)
    requires i < |tables| && Sorted(contents(time, i))
    requires tables[i].guarded ==> contents(time, i) == contents(0, i)
    requires after.Some? ==> Exported(tables, contents, i, rows, after)
    requires after.None? ==> rows == [] && n == 0
    requires n + |page| <= |contents(time, i)| && page == contents(time, i)[n..n + |page|]
    requires forall k :: n <= k < |contents(time, i)| ==> after.None? || contents(time, i)[k].key > after.value
    requires forall k :: 0 <= k < n ==> after.Some? && contents(time, i)[k].key <= after.value
    ensures page != [] ==> Exported(tables, contents, i, rows + page, Some(page[|page| - 1].key))
    ensures n + |page| == |contents(time, i)| ==> Exported(tables, contents, i, rows + page, None)
  {
    var all := contents(time, i);
    PageReadFrom(contents, time, i, page, n);
    PageSorted(all, page, n);
    AppendSorted(rows, page, after);
    if after.Some? { assert ReadFrom(contents, i, rows); }
    ReadFromConcat(contents, i, rows, page);
    if tables[i].guarded { GuardedCut(all, rows, after, n, page); }
    PageExported(tables, contents, i, rows + page, n + |page|);
  }

  /** Reading the page behind `after` extends what has been exported up to the page's last key; a page that
      is not full ends the table. */
  lemma PageExtends(tables: seq<Table>, contents: (nat, nat) -> seq<Row>, time: nat, i: nat, rows: seq<Row>,
    after: Option<Key>)
    requires i < |tables| && Sorted(contents(time, i))
    requires tables[i].guarded ==> contents(time, i) == contents(0, i)
    requires after.Some? ==> Exported(tables, contents, i, rows, after)
    requires after.None? ==> rows == []
    ensures var page := Page(contents(time, i), after);
      && (|page| == PAGE_ROWS ==> Exported(tables, contents, i, rows + page, Some(page[|page| - 1].key)))
      && (|page| < PAGE_ROWS ==> Exported(tables, contents, i, rows + page, None))
  {
    var page := Page(contents(time, i), after);
    var n := PageOfGuarded(contents(time, i), rows, after);
    CutExtends(tables, contents, time, i, rows, after, page, n);
  }

  lemma PageExported(tables: seq<Table>, contents: (nat, nat) -> seq<Row>, i: nat, more: seq<Row>, m: nat)
    requires i < |tables| && Sorted(more) && ReadFrom(contents, i, more)
    requires tables[i].guarded ==> m <= |contents(0, i)| && more == contents(0, i)[..m]
    requires tables[i].guarded && more != [] ==> forall k :: m <= k < |contents(0, i)| ==>
      contents(0, i)[k].key > more[|more| - 1].key
    ensures more != [] ==> Exported(tables, contents, i, more, Some(more[|more| - 1].key))
    ensures (tables[i].guarded ==> m == |contents(0, i)|) ==> Exported(tables, contents, i, more, None)
  {
  }

  // ---------- saved progress ----------

  /** What stays fixed while one backup is made: the paused database, the hash and the closing text. */
  datatype Backup = Backup(tables: seq<Table>, contents: (nat, nat) -> seq<Row>, sha256: string -> string, tail: string)

  ghost predicate Wellformed(b: Backup) {
    Paused(b.tables, b.contents) && Injective(b.sha256)
  }

  /** Every object is named by its checksum, and the given parts are among them. */
  ghost predicate Stored(b: Backup, objects: map<string, string>, parts: seq<string>) {
    && (forall p :: p in parts ==> p in objects)
    && (forall p :: p in objects ==> p == b.sha256(objects[p]))
  }

  /** What a saved progress promises about the stored parts. */
  ghost predicate Good(b: Backup, objects: map<string, string>, p: Progress) {
    match p
    case Copying => true
    case Dumping(parts, table, after) =>
      && Stored(b, objects, parts)
      && (parts == [] ==> table == 0 && after == None)
      && (parts != [] ==> exists exported :: Covers(b.tables, b.contents, Concat(objects, parts), table, after,
         exported))
    case Finishing(parts) =>
      && Stored(b, objects, parts)
      && exists exported :: Finished(b.tables, b.contents, b.tail, Concat(objects, parts), exported)
  }

  /** A stored part keeps every saved progress good and adds its text at the end. */
  lemma PartStored(b: Backup, objects: map<string, string>, parts: seq<string>, content: string)
    requires Injective(b.sha256) && Stored(b, objects, parts)
    ensures var key := b.sha256(content);
      && Stored(b, objects[key := content], parts + [key])
      && Concat(objects[key := content], parts + [key]) == Concat(objects, parts) + content
  {
    var key := b.sha256(content);
    assert key in objects ==> objects[key] == content;
    ConcatKeeps(objects, key, content, parts);
    assert (parts + [key])[..|parts|] == parts;
  }

  lemma PartKeepsGood(b: Backup, objects: map<string, string>, content: string, p: Progress)
    requires Injective(b.sha256) && Stored(b, objects, []) && Good(b, objects, p)
    ensures Good(b, objects[b.sha256(content) := content], p)
  {
    var key := b.sha256(content);
    assert key in objects ==> objects[key] == content;
    if !p.Copying? { ConcatKeeps(objects, key, content, p.parts); }
  }

  /** Parts are only ever added. */
  ghost predicate Grows(before: map<string, string>, after: map<string, string>) {
    forall p :: p in before ==> p in after && after[p] == before[p]
  }

  lemma {:induction false} ConcatGrows(before: map<string, string>, after: map<string, string>, parts: seq<string>)
    requires Grows(before, after) && forall p :: p in parts ==> p in before
    ensures Concat(after, parts) == Concat(before, parts)
  {
    if parts != [] {
      var last := parts[|parts| - 1];
      assert last in parts;
      ConcatGrows(before, after, parts[..|parts| - 1]);
    }
  }

  lemma GoodGrows(b: Backup, before: map<string, string>, after: map<string, string>, p: Progress)
    requires Grows(before, after) && Stored(b, after, []) && Good(b, before, p)
    ensures Good(b, after, p)
  {
    if !p.Copying? { ConcatGrows(before, after, p.parts); }
  }

  // ---------- other attempts ----------

  /** Saved progress that keeps its promise about parts named by their checksums. */
  ghost predicate Sane(b: Backup, progress: Option<Progress>, objects: map<string, string>) {
    Stored(b, objects, []) && (progress.Some? ==> Good(b, objects, progress.value))
  }

  /** What others do to the saved progress and the parts before a remote call. */
  type Others = (nat, Option<Progress>, map<string, string>) -> (Option<Progress>, map<string, string>)

  /** Other attempts at this backup may do whatever an attempt does: store parts, and move, drop or restart the
      progress, as long as it keeps its promise. */
  ghost predicate Fair(b: Backup, others: Others) {
    forall t, p, o :: Sane(b, p, o) ==> Sane(b, others(t, p, o).0, others(t, p, o).1) && Grows(o, others(t, p, o).1)
  }

  // ---------- the export ----------

  datatype Outcome = Stopped | ProgressChanged | Invalid | Done(parts: seq<string>)

  /** The remote side: saved progress, stored parts of this backup, and the passing of time. */
  class Server {
    const backup: Backup
    const others: Others
    var progress: Option<Progress>
    var objects: map<string, string>
    var clock: nat

    ghost predicate Valid()
      reads this
    {
      Wellformed(backup) && Fair(backup, others) && Sane(backup, progress, objects)
    }

    /** No other attempt comes in between. */
    ghost predicate Undisturbed() {
      forall t, p, o :: others(t, p, o) == (p, o)
    }

    constructor (backup: Backup, others: Others)
      requires Wellformed(backup) && Fair(backup, others)
      ensures Valid() && progress == Some(Dumping([], 0, None)) && this.backup == backup && this.others == others
    {
      this.backup, this.others := backup, others;
      progress := Some(Dumping([], 0, None));
      objects := map[];
      clock := 0;
    }

    // `clock` counts the remote calls, each of which may be a process's last.

    /** Other attempts move on before a remote call. */
    method Meanwhile()
      requires Valid()
      modifies `progress, `objects
      ensures Valid() && Grows(old(objects), objects)
      ensures Undisturbed() ==> progress == old(progress) && objects == old(objects)
    {
      var (p, o) := others(clock, progress, objects);
      progress, objects := p, o;
    }

    /** One page query, answered from the table as it is now. */
    method ReadPage(i: nat, after: Option<Key>) returns (page: seq<Row>)
      requires Valid()
      modifies `progress, `objects, `clock
      ensures Valid() && Grows(old(objects), objects)
      ensures Undisturbed() ==> progress == old(progress)
      ensures page == Page(backup.contents(old(clock), i), after) && clock == old(clock) + 1
    {
      Meanwhile();
      page := Page(backup.contents(clock, i), after);
      clock := clock + 1;
    }

    /** Stores a part under its checksum. */
    method PutPart(content: string) returns (key: string)
      requires Valid()
      modifies `progress, `objects, `clock
      ensures Valid() && clock == old(clock) + 1 && Grows(old(objects), objects)
      ensures Undisturbed() ==> progress == old(progress)
      ensures key == backup.sha256(content) && key in objects && objects[key] == content
    {
      Meanwhile();
      key := backup.sha256(content);
      if progress.Some? { PartKeepsGood(backup, objects, content, progress.value); }
      PartStored(backup, objects, [], content);
      assert key in objects ==> objects[key] == content;
      objects := objects[key := content];
      clock := clock + 1;
    }

    /** Compare-and-set of the saved progress, which others may have moved until then. */
    method SaveProgress(expected: Progress, next: Progress) returns (saved: bool, ghost found: Option<Progress>)
      requires Valid() && Good(backup, objects, next)
      modifies `progress, `objects, `clock
      ensures Valid() && clock == old(clock) + 1 && Grows(old(objects), objects)
      ensures Undisturbed() ==> found == old(progress)
      ensures saved == (found == Some(expected))
      ensures progress == if saved then Some(next) else found
    {
      ghost var before := objects;
      Meanwhile();
      GoodGrows(backup, before, objects, next);
      found := progress;
      saved := progress == Some(expected);
      if saved { progress := Some(next); }
      clock := clock + 1;
    }

    /** A part stored by now stands behind the parts before it. */
    lemma PartBehind(before: map<string, string>, parts: seq<string>, key: string, content: string)
      requires Stored(backup, before, parts) && Stored(backup, objects, []) && Grows(before, objects)
      requires key in objects && objects[key] == content
      ensures Stored(backup, objects, parts + [key])
      ensures Concat(objects, parts + [key]) == Concat(before, parts) + content
    {
      ConcatGrows(before, objects, parts);
      assert (parts + [key])[..|parts|] == parts;
    }

    /** Saves the buffered text as a part and moves the saved position (`checkpoint` in `dumpDatabase`). */
    method Checkpoint(raw: Progress, parts: seq<string>, buffer: string, table: nat, after: Option<Key>, calls: nat,
                      ghost exported: seq<seq<Row>>)
      returns (outcome: Outcome)
      requires Valid() && Stored(backup, objects, parts)
      requires Covers(backup.tables, backup.contents, Concat(objects, parts) + buffer, table, after, exported)
      modifies `objects, `progress, `clock
      ensures Valid() && outcome != Invalid
      ensures Grows(old(objects), objects)
      ensures outcome == Stopped ==> clock == old(clock) + calls && (Undisturbed() ==> progress == old(progress))
      ensures Undisturbed() && outcome == ProgressChanged ==> old(progress) != Some(raw)
      ensures outcome.Done? ==> calls >= 2 && clock == old(clock) + 2
      ensures outcome.Done? ==>
        && outcome.parts != [] && Stored(backup, objects, outcome.parts)
        && Concat(objects, outcome.parts) == Concat(old(objects), parts) + buffer
        && progress == Some(Dumping(outcome.parts, table, after))
    {
      if calls == 0 { return Stopped; }
      ghost var before := objects;
      var key := PutPart(buffer);
      PartBehind(before, parts, key, buffer);
      if calls == 1 { return Stopped; }
      ghost var behind := objects;
      var saved;
      ghost var found;
      saved, found := SaveProgress(raw, Dumping(parts + [key], table, after));
      ConcatGrows(behind, objects, parts + [key]);
      outcome := if saved then Done(parts + [key]) else ProgressChanged;
    }

    /** Inside a table: the buffered text reaches `after`, or the definition alone, or the whole table. */
    ghost predicate Within(text: string, index: nat, after: Option<Key>, full: bool, exported: seq<seq<Row>>) {
      && |exported| == index + 1 <= |backup.tables|
      && (forall i :: 0 <= i < index ==> Exported(backup.tables, backup.contents, i, exported[i], None))
      && text == HEADER + TablesText(backup.tables, exported)
      && (if !full then Exported(backup.tables, backup.contents, index, exported[index], None)
          else if after.Some? then Exported(backup.tables, backup.contents, index, exported[index], after)
          else exported[index] == [])
    }

    /** Reading one page and appending its statements moves further within the table. */
    lemma PageWithin(text: string, index: nat, after: Option<Key>, exported: seq<seq<Row>>, time: nat)
      requires Wellformed(backup) && Within(text, index, after, true, exported)
      ensures var page := Page(backup.contents(time, index), after);
        var full := |page| == PAGE_ROWS;
        Within(text + Statements(page), index, if full then Some(page[|page| - 1].key) else after, full,
               exported[index := exported[index] + page])
    {
      var page := Page(backup.contents(time, index), after);
      PageText(backup.tables, exported, page);
      PageExtends(backup.tables, backup.contents, time, index, exported[index], after);
    }

    /** One page of a table, with a checkpoint when it is full and fills a part: before the next page is read, less
        than a part is left to be stored. */
    method ExportPage(raw0: Progress, parts0: seq<string>, buffer0: string, index: nat, start: Option<Key>, calls: nat,
                      ghost exported0: seq<seq<Row>>)
      returns (outcome: Outcome, raw: Progress, parts: seq<string>, buffer: string, after: Option<Key>, full: bool,
               left: nat, ghost exported: seq<seq<Row>>)
      requires Valid() && Stored(backup, objects, parts0)
      requires Within(Concat(objects, parts0) + buffer0, index, start, true, exported0)
      modifies `progress, `objects, `clock
      ensures Valid() && outcome != Invalid
      ensures outcome == Stopped ==> clock == old(clock) + calls
      ensures Grows(old(objects), objects)
      ensures Undisturbed() && outcome == ProgressChanged ==> old(progress) != Some(raw0)
      ensures outcome.Done? ==>
        && Stored(backup, objects, parts) && left < calls && left + clock == calls + old(clock)
        && (Undisturbed() && old(progress) == Some(raw0) ==> progress == Some(raw))
        && Within(Concat(objects, parts) + buffer, index, after, full, exported)
        && (full ==> |buffer| < PART_CHARACTERS)
    {
      hide TablesText, Exported, Good, Wellformed, Statements;
      raw, parts, buffer, after, full, left, exported := raw0, parts0, buffer0, start, true, calls, exported0;
      if left == 0 { outcome := Stopped; return; }
      left := left - 1;
      PageWithin(Concat(objects, parts) + buffer, index, after, exported, clock);
      ghost var before := objects;
      var page := ReadPage(index, after);
      ConcatGrows(before, objects, parts);
      assert Concat(objects, parts) + (buffer + Statements(page)) == Concat(objects, parts) + buffer + Statements(page);
      buffer := buffer + Statements(page);
      exported := exported[index := exported[index] + page];
      full := |page| == PAGE_ROWS;
      outcome := Done(parts);
      if full {
        after := Some(page[|page| - 1].key);
        if |buffer| >= PART_CHARACTERS {
          outcome := Checkpoint(raw, parts, buffer, index, after, left, exported);
          if !outcome.Done? { return; }
          left := left - 2;
          raw, parts, buffer := Dumping(outcome.parts, index, after), outcome.parts, "";
          assert Concat(objects, parts) + buffer == Concat(objects, parts);
        }
      }
    }

    /** The rest of one table from `start` on. */
    method ExportTable(raw0: Progress, parts0: seq<string>, buffer0: string, index: nat, start: Option<Key>, calls: nat,
                       ghost exported0: seq<seq<Row>>)
      returns (outcome: Outcome, raw: Progress, parts: seq<string>, buffer: string, left: nat,
        ghost exported: seq<seq<Row>>)
      requires Valid() && Stored(backup, objects, parts0)
      requires Within(Concat(objects, parts0) + buffer0, index, start, true, exported0)
      modifies `progress, `objects, `clock
      ensures Valid() && outcome != Invalid
      ensures outcome == Stopped ==> clock == old(clock) + calls
      ensures Grows(old(objects), objects)
      ensures Undisturbed() && outcome == ProgressChanged ==> old(progress) != Some(raw0)
      ensures outcome.Done? ==>
        && Stored(backup, objects, parts) && left + clock == calls + old(clock)
        && (Undisturbed() && old(progress) == Some(raw0) ==> progress == Some(raw))
        && Covers(backup.tables, backup.contents, Concat(objects, parts) + buffer, index + 1, None, exported)
    {
      raw, parts, buffer, left, exported := raw0, parts0, buffer0, calls, exported0;
      var after, full := start, true;
      while full
        invariant Valid() && Stored(backup, objects, parts)
        invariant Within(Concat(objects, parts) + buffer, index, after, full, exported)
        invariant left + clock == calls + old(clock)
        invariant Grows(old(objects), objects)
        invariant Undisturbed() && old(progress) == Some(raw0) ==> progress == Some(raw)
        decreases left
      {
        outcome, raw, parts, buffer, after, full, left, exported :=
          ExportPage(raw, parts, buffer, index, after, left, exported);
        if !outcome.Done? { return; }
      }
      outcome := Done(parts);
    }

    /** One table: its definition unless it was saved before, its rows, and a checkpoint if they fill a part. */
    method NextTable(raw0: Progress, parts0: seq<string>, buffer0: string, index: nat, start: Option<Key>, calls: nat,
                     ghost exported0: seq<seq<Row>>)
      returns (outcome: Outcome, raw: Progress, parts: seq<string>, buffer: string, left: nat,
        ghost exported: seq<seq<Row>>)
      requires Valid() && Stored(backup, objects, parts0) && index < |backup.tables|
      requires Covers(backup.tables, backup.contents, Concat(objects, parts0) + buffer0, index, start, exported0)
      modifies `progress, `objects, `clock
      ensures Valid() && outcome != Invalid
      ensures outcome == Stopped ==> clock == old(clock) + calls
      ensures Grows(old(objects), objects)
      ensures Undisturbed() && outcome == ProgressChanged ==> old(progress) != Some(raw0)
      ensures outcome.Done? ==>
        && Stored(backup, objects, parts) && left + clock == calls + old(clock)
        && (Undisturbed() && old(progress) == Some(raw0) ==> progress == Some(raw))
        && Covers(backup.tables, backup.contents, Concat(objects, parts) + buffer, index + 1, None, exported)
        && |buffer| < PART_CHARACTERS
    {
      buffer, exported := buffer0, exported0;
      if start.None? {
        DefinitionWithin(Concat(objects, parts0), buffer, index, exported);
        buffer := buffer + (backup.tables[index].definition + ";\n");
        exported := exported + [[]];
      }
      outcome, raw, parts, buffer, left, exported := ExportTable(raw0, parts0, buffer, index, start, calls, exported);
      if outcome.Done? && |buffer| >= PART_CHARACTERS {
        outcome := Checkpoint(raw, parts, buffer, index + 1, None, left, exported);
        if !outcome.Done? { return; }
        left := left - 2;
        raw, parts, buffer := Dumping(outcome.parts, index + 1, None), outcome.parts, "";
        assert Concat(objects, parts) + buffer == Concat(objects, parts);
      }
    }

    lemma DefinitionWithin(saved: string, buffer: string, index: nat, exported: seq<seq<Row>>)
      requires index < |backup.tables| && Covers(backup.tables, backup.contents, saved + buffer, index, None, exported)
      ensures Within(saved + (buffer + (backup.tables[index].definition + ";\n")), index, None, true, exported + [[]])
    {
      var definition := backup.tables[index].definition + ";\n";
      DefinitionText(backup.tables, exported);
      assert saved + (buffer + definition) == saved + buffer + definition;
    }

    lemma FinishedIsGood(parts: seq<string>, exported: seq<seq<Row>>)
      requires Stored(backup, objects, parts)
      requires Finished(backup.tables, backup.contents, backup.tail, Concat(objects, parts), exported)
      ensures Good(backup, objects, Finishing(parts))
    {
    }

    lemma TailFinishes(saved: string, buffer: string, exported: seq<seq<Row>>)
      requires Covers(backup.tables, backup.contents, saved + buffer, |backup.tables|, None, exported)
      ensures Finished(backup.tables, backup.contents, backup.tail, saved + (buffer + backup.tail), exported)
    {
      hide TablesText, Exported;
      assert saved + (buffer + backup.tail) == saved + buffer + backup.tail;
    }

    /** The indexes and sequences, the last part, and the finished progress. */
    method FinishDump(raw: Progress, parts: seq<string>, buffer0: string, calls: nat, ghost exported: seq<seq<Row>>)
      returns (outcome: Outcome)
      requires Valid() && Stored(backup, objects, parts)
      requires Covers(backup.tables, backup.contents, Concat(objects, parts) + buffer0, |backup.tables|, None, exported)
      modifies `progress, `objects, `clock
      ensures Valid() && outcome != Invalid
      ensures outcome == Stopped ==> clock == old(clock) + calls
      ensures Grows(old(objects), objects)
      ensures Undisturbed() && outcome == ProgressChanged ==> old(progress) != Some(raw)
      ensures outcome.Done? ==> progress == Some(Finishing(outcome.parts))
    {
      hide TablesText, Exported, Covers, Finished, Fair, Undisturbed;
      var buffer := buffer0 + backup.tail;
      if calls == 0 { return Stopped; }
      ghost var before := objects;
      TailFinishes(Concat(objects, parts), buffer0, exported);
      var key := PutPart(buffer);
      PartBehind(before, parts, key, buffer);
      if calls == 1 { return Stopped; }
      FinishedIsGood(parts + [key], exported);
      hide Good, Stored, Concat;
      var done;
      ghost var found;
      done, found := SaveProgress(raw, Finishing(parts + [key]));
      outcome := if done then Done(parts + [key]) else ProgressChanged;
    }

    /**
     * Exports from the saved position on. After any number of remote calls the process may stop, between
     * storing a part and saving its progress too, and before each call other attempts may store parts and move
     * the progress. However it ends, the saved progress still names parts that cover exactly the rows before its
     * position, and a finished export names parts that hold every table once, in order. It only ends early when
     * it is stopped after exactly `calls` remote calls, or when the progress was moved by someone else. A saved
     * position behind the last table is refused.
     */
    method DumpDatabase(saved: Progress, calls: nat) returns (outcome: Outcome)
      requires Valid() && saved.Dumping? && (Good(backup, objects, saved) || saved.table > |backup.tables|)
      modifies `progress, `objects, `clock
      ensures Valid() && (outcome == Invalid <==> saved.table > |backup.tables|)
      ensures outcome == Invalid ==> progress == old(progress) && objects == old(objects) && clock == old(clock)
      ensures outcome == Stopped ==> clock == old(clock) + calls
      ensures Grows(old(objects), objects)
      ensures Undisturbed() && outcome == ProgressChanged ==> old(progress) != Some(saved)
      ensures outcome.Done? ==> progress == Some(Finishing(outcome.parts))
    {
      var tables := backup.tables;
      if saved.table > |tables| { return Invalid; }
      var left, raw, parts := calls, saved, saved.parts;
      var buffer := if parts == [] then HEADER else "";
      var index, after := saved.table, saved.after;
      ghost var exported: seq<seq<Row>> := [];
      if parts != [] {
        exported :| Covers(tables, backup.contents, Concat(objects, parts), index, after, exported);
      }
      assert Concat(objects, parts) + buffer == if parts == [] then HEADER else Concat(objects, parts);
      while index < |tables|
        invariant Valid() && Stored(backup, objects, parts) && index <= |tables|
        invariant Covers(tables, backup.contents, Concat(objects, parts) + buffer, index, after, exported)
        invariant left >= 0 && left + clock == calls + old(clock)
        invariant Grows(old(objects), objects)
        invariant Undisturbed() && old(progress) == Some(saved) ==> progress == Some(raw)
      {
        outcome, raw, parts, buffer, left, exported := NextTable(raw, parts, buffer, index, after, left, exported);
        if !outcome.Done? { return; }
        index, after := index + 1, None;
      }
      outcome := FinishDump(raw, parts, buffer, left, exported);
    }
  }

  // ---------- what a finished export holds ----------

  lemma {:induction false} SameTables(tables: seq<Table>, a: seq<seq<Row>>, b: seq<seq<Row>>)
    requires |a| == |b| <= |tables| && forall i :: 0 <= i < |a| ==> a[i] == b[i]
    ensures TablesText(tables, a) == TablesText(tables, b)
  {
    assert a == b;
  }

  /** However often it was interrupted, a finished export of paused tables is the export in one pass. */
  lemma FinishedIsOnePass(b: Backup, objects: map<string, string>, parts: seq<string>)
    requires Wellformed(b) && Good(b, objects, Finishing(parts))
    requires forall i :: 0 <= i < |b.tables| ==> b.tables[i].guarded
    ensures Concat(objects, parts) == OnePass(b.tables, b.contents, b.tail)
  {
    var exported :| Finished(b.tables, b.contents, b.tail, Concat(objects, parts), exported);
    var once := seq(|b.tables|, i requires 0 <= i => b.contents(0, i));
    SameTables(b.tables, exported, once);
  }

  /** With writable control tables among them, a finished export still holds the header once, each definition
      once, and each row of a guarded table exactly once in key order; a control table contributes rows that
      were in it, in key order and without repetition. */
  lemma FinishedHoldsEveryGuardedRow(b: Backup, objects: map<string, string>, parts: seq<string>)
    returns (exported: seq<seq<Row>>)
    requires Wellformed(b) && Good(b, objects, Finishing(parts))
    ensures |exported| == |b.tables|
    ensures Concat(objects, parts) == HEADER + TablesText(b.tables, exported) + b.tail
    ensures forall i :: 0 <= i < |b.tables| && b.tables[i].guarded ==> exported[i] == b.contents(0, i)
    ensures forall i :: 0 <= i < |b.tables| ==> Sorted(exported[i]) && ReadFrom(b.contents, i, exported[i])
  {
    exported :| Finished(b.tables, b.contents, b.tail, Concat(objects, parts), exported);
    forall i | 0 <= i < |b.tables|
      ensures Sorted(exported[i]) && ReadFrom(b.contents, i, exported[i])
      ensures b.tables[i].guarded ==> exported[i] == b.contents(0, i)
    {
      assert Exported(b.tables, b.contents, i, exported[i], None);
    }
  }

  /**
   * Any number of attempts, each stopped after its own number of remote calls and each starting from the
   * progress that is saved by then, with others beside them. Once the progress says `finishing`, the saved parts
   * are the whole export.
   */
  method ExportWithInterruptions(server: Server, stops: seq<nat>)
    requires server.Valid() && server.progress == Some(Dumping([], 0, None))
    requires forall i :: 0 <= i < |server.backup.tables| ==> server.backup.tables[i].guarded
    modifies server
    ensures server.progress.Some? && server.progress.value.Finishing? ==>
      Concat(server.objects, server.progress.value.parts) ==
        OnePass(server.backup.tables, server.backup.contents, server.backup.tail)
  {
    for k := 0 to |stops|
      invariant server.Valid()
    {
      if server.progress.Some? && server.progress.value.Dumping? {
        var outcome := server.DumpDatabase(server.progress.value, stops[k]);
      }
    }
    if server.progress.Some? && server.progress.value.Finishing? {
      FinishedIsOnePass(server.backup, server.objects, server.progress.value.parts);
    }
  }
}
