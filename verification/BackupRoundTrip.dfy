/**
 From the paused database to the rows that a restore reads: the resumable export (upgrade-checkpoint.ts)
 and the reader of a backup (archive.ts) put together.
 */
module BackupRoundTrip {
  import opened Common
  import Codec = DumpCodec
  import Dump = DumpRoundTrip
  import Export = UpgradeExport

  /** The stored row behind a printed one. */
  type Decoding = Export.Row -> Codec.Row

  /** A printed row that a backup may hold. */
  ghost predicate RowPrints(row: Decoding, r: Export.Row) {
    Codec.AllowedRow(row(r)) && r.sql == Codec.InsertText(row(r)) + ";\n"
  }

  /** The export prints every row that is ever read as its INSERT statement, and its end as the indexes, the
      reset and the sequence rows; all of them are things a backup may hold. */
  ghost predicate Prints(b: Export.Backup, row: Decoding, indexes: seq<string>, sequences: seq<Codec.Row>) {
    && (forall i :: 0 <= i < |b.tables| ==> Dump.Definition(b.tables[i].definition))
    && (forall t: nat, i: nat, r :: i < |b.tables| && r in b.contents(t, i) ==> RowPrints(row, r))
    && (forall i :: 0 <= i < |indexes| ==> Dump.Definition(indexes[i]))
    && (forall i :: 0 <= i < |sequences| ==> Codec.AllowedRow(sequences[i]))
    && b.tail == Dump.Tail(indexes, Dump.RESET, Dump.Inserts(sequences))
  }

  function Rows(row: Decoding, exported: seq<Export.Row>): (rows: seq<Codec.Row>)
    ensures |rows| == |exported| && forall i :: 0 <= i < |rows| ==> rows[i] == row(exported[i])
  {
    if exported == [] then [] else Rows(row, exported[..|exported| - 1]) + [row(exported[|exported| - 1])]
  }

  /** Exported tables as the printer sees them. */
  function Tables(tables: seq<Export.Table>, row: Decoding, exported: seq<seq<Export.Row>>): (ts: seq<Dump.Table>)
    requires |exported| <= |tables|
    ensures |ts| == |exported|
    ensures forall i :: 0 <= i < |ts| ==> ts[i] == Dump.Table(tables[i].definition, Rows(row, exported[i]))
  {
    if exported == [] then []
    else
      var n := |exported| - 1;
      Tables(tables, row, exported[..n]) + [Dump.Table(tables[n].definition, Rows(row, exported[n]))]
  }

  lemma {:induction false} LinesConcat(a: seq<string>, b: seq<string>)
    ensures Dump.Lines(a + b) == Dump.Lines(a) + Dump.Lines(b)
    decreases |a|
  {
    if a == [] {
      assert a + b == b;
    } else {
      assert (a + b)[1..] == a[1..] + b;
      LinesConcat(a[1..], b);
      Regroup(a[0] + ";\n", Dump.Lines(a[1..]), Dump.Lines(b));
    }
  }

  lemma Regroup(a: string, b: string, c: string)
    ensures a + (b + c) == a + b + c
  {
  }

  lemma {:induction false} StatementsAreConcat(a: seq<Dump.Table>, t: Dump.Table)
    ensures Dump.TableStatements(a + [t]) == Dump.TableStatements(a) + ([t.definition] + Dump.Inserts(t.rows))
  {
    hide Dump.Inserts;
    if a == [] {
      assert a + [t] == [t] && [t][1..] == [];
    } else {
      assert (a + [t])[1..] == a[1..] + [t];
      StatementsAreConcat(a[1..], t);
    }
  }

  lemma InsertsLast(rows: seq<Codec.Row>, row: Codec.Row)
    ensures Dump.Inserts(rows + [row]) == Dump.Inserts(rows) + [Codec.InsertText(row)]
  {
    hide Codec.InsertText, Dump.Inserts;
    Dump.InsertsAt(rows);
    Dump.InsertsAt(rows + [row]);
  }

  lemma OneLine(statement: string)
    ensures Dump.Lines([statement]) == statement + ";\n"
  {
    assert [statement][1..] == [];
  }

  /** The statements of a table are the lines of its rows. */
  lemma {:induction false} StatementsAreLines(row: Decoding, exported: seq<Export.Row>)
    requires forall i :: 0 <= i < |exported| ==> RowPrints(row, exported[i])
    ensures Export.Statements(exported) == Dump.Lines(Dump.Inserts(Rows(row, exported)))
  {
    hide Codec.InsertText, Dump.Inserts, Dump.Lines;
    if exported == [] {
      NoLines(row);
    } else {
      var n := |exported| - 1;
      var before := exported[..n];
      StatementsAreLines(row, before);
      InsertsLast(Rows(row, before), row(exported[n]));
      LinesConcat(Dump.Inserts(Rows(row, before)), [Codec.InsertText(row(exported[n]))]);
      OneLine(Codec.InsertText(row(exported[n])));
    }
  }

  lemma NoLines(row: Decoding)
    ensures Dump.Inserts(Rows(row, [])) == [] && Dump.Lines([]) == ""
  {
  }

  ghost predicate Printed(row: Decoding, exported: seq<seq<Export.Row>>) {
    forall i, j :: 0 <= i < |exported| && 0 <= j < |exported[i]| ==> RowPrints(row, exported[i][j])
  }

  /** The exported text is the printed one. */
  lemma {:induction false} TextIsPrinted(tables: seq<Export.Table>, row: Decoding, exported: seq<seq<Export.Row>>)
    requires |exported| <= |tables| && Printed(row, exported)
    ensures Export.TablesText(tables, exported) == Dump.Lines(Dump.TableStatements(Tables(tables, row, exported)))
  {
    hide Codec.InsertText, Dump.Inserts, Dump.Lines, Dump.TableStatements, Export.Statements;
    if exported == [] {
      NothingPrinted();
    } else {
      var n := |exported| - 1;
      var before, last := Tables(tables, row, exported[..n]), Dump.Table(tables[n].definition, Rows(row, exported[n]));
      TextIsPrinted(tables, row, exported[..n]);
      StatementsAreLines(row, exported[n]);
      assert Tables(tables, row, exported) == before + [last];
      StatementsAreConcat(before, last);
      LinesConcat(Dump.TableStatements(before), [last.definition] + Dump.Inserts(last.rows));
      LinesConcat([last.definition], Dump.Inserts(last.rows));
      OneLine(last.definition);
      var text := Export.TablesText(tables, exported[..n]);
      Regroup(text + last.definition, ";\n", Export.Statements(exported[n]));
      Regroup(text, last.definition + ";\n", Export.Statements(exported[n]));
      Regroup(text, last.definition, ";\n");
    }
  }

  lemma NothingPrinted()
    ensures Dump.TableStatements([]) == [] && Dump.Lines([]) == ""
  {
  }

  lemma HeaderIsPragma()
    ensures Export.HEADER == Dump.Lines([Dump.PRAGMA])
  {
    OneLine(Dump.PRAGMA);
  }

  lemma DumpIsPrinted(b: Export.Backup, row: Decoding, indexes: seq<string>, sequences: seq<Codec.Row>,
    exported: seq<seq<Export.Row>>)
    requires |exported| <= |b.tables| && Printed(row, exported)
    requires b.tail == Dump.Tail(indexes, Dump.RESET, Dump.Inserts(sequences))
    ensures Export.HEADER + Export.TablesText(b.tables, exported) + b.tail ==
            Dump.DumpText(Tables(b.tables, row, exported), indexes, sequences)
  {
    hide Export.TablesText, Dump.TableStatements, Dump.Lines, Dump.Tail, Dump.Inserts, Printed, Tables;
    HeaderIsPragma();
    TextIsPrinted(b.tables, row, exported);
    LinesConcat([Dump.PRAGMA], Dump.TableStatements(Tables(b.tables, row, exported)));
  }

  /** A table that was read consists of printed rows. */
  lemma TableIsPrinted(b: Export.Backup, row: Decoding, indexes: seq<string>, sequences: seq<Codec.Row>, i: nat,
    rows: seq<Export.Row>)
    requires Prints(b, row, indexes, sequences) && i < |b.tables| && Export.ReadFrom(b.contents, i, rows)
    ensures forall j :: 0 <= j < |rows| ==> RowPrints(row, rows[j])
  {
    hide RowPrints, Dump.Definition, Dump.Tail, Dump.Inserts, Codec.AllowedRow;
    forall j | 0 <= j < |rows| ensures RowPrints(row, rows[j]) {
      assert Export.WasIn(b.contents, i, rows[j]);
      var t: nat :| rows[j] in b.contents(t, i);
    }
  }

  lemma ExportIsPrinted(b: Export.Backup, row: Decoding, indexes: seq<string>, sequences: seq<Codec.Row>,
    exported: seq<seq<Export.Row>>)
    requires Prints(b, row, indexes, sequences) && |exported| == |b.tables|
    requires forall i :: 0 <= i < |b.tables| ==> Export.ReadFrom(b.contents, i, exported[i])
    ensures Printed(row, exported)
  {
    hide RowPrints, Prints, Export.ReadFrom;
    forall i, j | 0 <= i < |exported| && 0 <= j < |exported[i]| ensures RowPrints(row, exported[i][j]) {
      TableIsPrinted(b, row, indexes, sequences, i, exported[i]);
    }
  }

  lemma PrintedIsExportable(tables: seq<Export.Table>, row: Decoding, exported: seq<seq<Export.Row>>)
    requires |exported| <= |tables| && Printed(row, exported)
    requires forall i :: 0 <= i < |tables| ==> Dump.Definition(tables[i].definition)
    ensures Dump.Exportable(Tables(tables, row, exported))
  {
    hide Codec.InsertText, Codec.AllowedRow, Dump.Definition;
    forall i, j | 0 <= i < |exported| && 0 <= j < |exported[i]| ensures Codec.AllowedRow(row(exported[i][j])) {
      assert RowPrints(row, exported[i][j]);
    }
  }

  /**
   * However often the export was interrupted, reading the stored parts of a finished backup gives, table by
   * table, exactly the rows of every guarded table in key order, rows that were in it for a control table,
   * and the sequence rows at the end; only a backup with an integer that is not safe is refused.
   */
  lemma FinishedBackupReadsBack(b: Export.Backup, objects: map<string, string>, parts: seq<string>,
                                row: Decoding, indexes: seq<string>, sequences: seq<Codec.Row>)
    returns (exported: seq<seq<Export.Row>>)
    requires Export.Wellformed(b) && Export.Good(b, objects, Export.Finishing(parts))
      && Prints(b, row, indexes, sequences)
    ensures |exported| == |b.tables|
    ensures Codec.Parse(Export.Concat(objects, parts)) ==
            var rows := Dump.TableRows(Tables(b.tables, row, exported)) + sequences;
            if Dump.RowsReadBack(rows) then Some(rows) else None
    ensures forall i :: 0 <= i < |b.tables| && b.tables[i].guarded ==> exported[i] == b.contents(0, i)
    ensures forall i :: 0 <= i < |b.tables| ==>
      Export.Sorted(exported[i]) && Export.ReadFrom(b.contents, i, exported[i])
  {
    exported := Export.FinishedHoldsEveryGuardedRow(b, objects, parts);
    ExportIsPrinted(b, row, indexes, sequences, exported);
    PrintedIsExportable(b.tables, row, exported);
    hide Export.Good, Export.Concat, Dump.DumpText, Dump.Definition, Codec.AllowedRow, Dump.Exportable,
      Export.TablesText;
    DumpIsPrinted(b, row, indexes, sequences, exported);
    Dump.DumpRoundTrips(Tables(b.tables, row, exported), indexes, sequences);
  }
}
