/** The report viewer: resolving a saved report against its data source,
    fetching its rows through a collaborator, and exporting the rendered rows.

    Resolution is a validation pipeline (`Resolve`): the report must select
    columns, all of one table or view; that table is looked up among the
    source's tables and then its views; the selected columns are projected
    onto physical keys and display captions; and the source's kind decides
    whether rows come from the live query service or from AI generation.
    The two fetch collaborators are a parameter of `FetchReportData`: a
    function from the request issued to the response it gets. */
module ReportViewer {
  import opened Models
  import opened Seqs
  import opened ValueFormat

  datatype DataOrigin = Live | Ai

  /** A call on a row-fetching collaborator. */
  datatype FetchRequest =
    | GenerateRows(source: DataSource, report: ReportConfig, rowCount: nat)
    | FetchRows(source: DataSource, tableName: string, columns: seq<string>, limit: nat,
                filters: seq<FilterCondition>, sorts: seq<SortCondition>)

  /** What a collaborator answers: rows, an empty payload, or an error. */
  datatype FetchResponse = Delivered(rows: seq<Row>) | DeliveredNothing | FetchFailed

  datatype Resolution = Resolution(table: TableDef, columns: seq<DisplayedColumn>, request: FetchRequest)

  datatype Resolved<T> = Ok(value: T) | Rejected(message: string)

  const NoColumnsMessage := "No columns selected for this report."
  const MultiTableMessage := "Live data fetch supports a single table or view per report."
  const NotFoundMessage := "Table/View not found in the selected data source."
  const AiRowCount: nat := 100
  const LiveRowLimit: nat := 1000000

  // ---------------------------------------------------------------------
  // Distinct table ids

  /** `Array.from(new Set(ids))`: each id once, in order of first occurrence. */
  function Distinct(ids: seq<string>): seq<string>
  {
    if |ids| == 0 then []
    else
      var d := Distinct(ids[..|ids| - 1]);
      if ids[|ids| - 1] in d then d else d + [ids[|ids| - 1]]
  }

  predicate NoDuplicates(s: seq<string>)
  {
    forall i, j :: 0 <= i < j < |s| ==> s[i] != s[j]
  }

  lemma {:induction false} DistinctProperties(ids: seq<string>)
    ensures forall x :: x in Distinct(ids) <==> x in ids
    ensures NoDuplicates(Distinct(ids))
    ensures |ids| > 0 ==> |Distinct(ids)| > 0 && Distinct(ids)[0] == ids[0]
  {
    if |ids| > 0 {
      var prefix := ids[..|ids| - 1];
      DistinctProperties(prefix);
      assert ids == prefix + [ids[|ids| - 1]];
      if |prefix| > 0 {
        assert prefix[0] == ids[0];
      }
    }
  }

  /** There is exactly one distinct id precisely when the list is non-empty
      and every id equals the first. */
  lemma SingleDistinctIffAllEqual(ids: seq<string>)
    ensures |Distinct(ids)| == 1 <==> |ids| > 0 && forall i :: 0 <= i < |ids| ==> ids[i] == ids[0]
  {
    DistinctProperties(ids);
    var d := Distinct(ids);
    if |d| == 1 {
      forall i | 0 <= i < |ids| ensures ids[i] == ids[0] {
        assert ids[i] in d && ids[0] in d;
      }
    }
  }

  function TableIds(cols: seq<ReportColumn>): (ids: seq<string>)
    ensures |ids| == |cols| && forall i :: 0 <= i < |cols| ==> ids[i] == cols[i].tableId
  {
    seq(|cols|, i requires 0 <= i < |cols| => cols[i].tableId)
  }

  // ---------------------------------------------------------------------
  // Column projection

  /** `j` is the first column whose id or name is `key`. */
  predicate FirstNamed(columns: seq<ColumnDef>, key: string, j: int)
  {
    && 0 <= j < |columns| && (columns[j].id == key || columns[j].name == key)
    && forall k :: 0 <= k < j ==> columns[k].id != key && columns[k].name != key
  }

  function IdOrNameIs(key: string): ColumnDef -> bool
  {
    (c: ColumnDef) => c.id == key || c.name == key
  }

  /** A selected column as displayed: matched against the table's columns by
      id or by name (the first column matching either), keyed by the
      physical name and captioned by alias, then name, then the column id. */
  function ProjectColumn(table: TableDef, sc: ReportColumn): (d: DisplayedColumn)
    ensures d.formatting == sc.formatting
    ensures (forall j :: 0 <= j < |table.columns| ==>
               table.columns[j].id != sc.columnId && table.columns[j].name != sc.columnId) ==>
      d == DisplayedColumn(sc.columnId, sc.columnId, sc.formatting, None)
    ensures forall j :: FirstNamed(table.columns, sc.columnId, j) ==>
      d == DisplayedColumn(OrElse(table.columns[j].name, sc.columnId),
                           OrElse(OrElse(table.columns[j].alias, table.columns[j].name), sc.columnId),
                           sc.formatting, Some(table.columns[j].colType))
    ensures d.colType.Some? ==>
      exists j :: 0 <= j < |table.columns| &&
        (table.columns[j].id == sc.columnId || table.columns[j].name == sc.columnId) &&
        d.key == OrElse(table.columns[j].name, sc.columnId) &&
        d.caption == OrElse(OrElse(table.columns[j].alias, table.columns[j].name), sc.columnId) &&
        d.colType == Some(table.columns[j].colType)
  {
    match FindIndex(table.columns, IdOrNameIs(sc.columnId))
    case None => DisplayedColumn(sc.columnId, sc.columnId, sc.formatting, None)
    case Some(j) =>
      assert forall k :: FirstNamed(table.columns, sc.columnId, k) ==> k == j;
      var col := table.columns[j];
      DisplayedColumn(OrElse(col.name, sc.columnId), OrElse(OrElse(col.alias, col.name), sc.columnId),
                      sc.formatting, Some(col.colType))
  }

  function Projection(table: TableDef, selected: seq<ReportColumn>): (cols: seq<DisplayedColumn>)
    ensures |cols| == |selected|
    ensures forall i :: 0 <= i < |selected| ==> cols[i] == ProjectColumn(table, selected[i])
  {
    seq(|selected|, i requires 0 <= i < |selected| => ProjectColumn(table, selected[i]))
  }

  function Keys(cols: seq<DisplayedColumn>): (keys: seq<string>)
    ensures |keys| == |cols| && forall i :: 0 <= i < |cols| ==> keys[i] == cols[i].key
  {
    seq(|cols|, i requires 0 <= i < |cols| => cols[i].key)
  }

  /** The first table, else the first view, with the given id. */
  function LookupTable(source: DataSource, tableId: string): (t: Option<TableDef>)
    ensures (exists i :: 0 <= i < |source.tables| && source.tables[i].id == tableId) ==>
      t == Find(source.tables, (tb: TableDef) => tb.id == tableId)
    ensures t.None? <==>
      (forall i :: 0 <= i < |source.tables| ==> source.tables[i].id != tableId) &&
      (forall i :: 0 <= i < |source.views| ==> source.views[i].id != tableId)
    ensures t.Some? ==> t.value.id == tableId
    ensures forall i :: FirstTable(source.tables, tableId, i) ==> t == Some(source.tables[i])
    ensures forall j ::
      (forall i :: 0 <= i < |source.tables| ==> source.tables[i].id != tableId) && FirstTable(source.views, tableId, j) ==>
        t == Some(source.views[j])
  {
    match Find(source.tables, (tb: TableDef) => tb.id == tableId)
    case Some(tb) => Some(tb)
    case None => Find(source.views, (v: TableDef) => v.id == tableId)
  }

  // ---------------------------------------------------------------------
  // The validation pipeline

  /** Resolve a report against its data source, or say why it cannot be. */
  function Resolve(report: ReportConfig, source: DataSource): (r: Resolved<Resolution>)
    ensures |report.selectedColumns| == 0 ==> r == Rejected(NoColumnsMessage)
    ensures (&& |report.selectedColumns| > 0
             && exists i :: 0 <= i < |report.selectedColumns| &&
                  report.selectedColumns[i].tableId != report.selectedColumns[0].tableId) ==>
      r == Rejected(MultiTableMessage)
    ensures r.Ok? ==>
      && |report.selectedColumns| > 0
      && (forall i :: 0 <= i < |report.selectedColumns| ==> report.selectedColumns[i].tableId == r.value.table.id)
      && LookupTable(source, r.value.table.id) == Some(r.value.table)
      && r.value.columns == Projection(r.value.table, report.selectedColumns)
    ensures r.Ok? && source.kind == Custom ==> r.value.request == GenerateRows(source, report, AiRowCount)
    ensures r.Ok? && source.kind != Custom ==>
      r.value.request == FetchRows(source, r.value.table.name, Keys(r.value.columns), LiveRowLimit,
                                   report.filters, report.sorts)
    ensures r.Rejected? ==> r.message in {NoColumnsMessage, MultiTableMessage, NotFoundMessage}
  {
    var selected := report.selectedColumns;
    if |selected| == 0 then Rejected(NoColumnsMessage)
    else
      var tableIds := Distinct(TableIds(selected));
      SingleDistinctIffAllEqual(TableIds(selected));
      if |tableIds| != 1 then Rejected(MultiTableMessage)
      else
        DistinctProperties(TableIds(selected));
        var tableId := tableIds[0];
        match LookupTable(source, tableId)
        case None => Rejected(NotFoundMessage)
        case Some(table) =>
          var columns := Projection(table, selected);
          var request :=
            if source.kind == Custom then GenerateRows(source, report, AiRowCount)
            else FetchRows(source, table.name, Keys(columns), LiveRowLimit, report.filters, report.sorts);
          Ok(Resolution(table, columns, request))
  }

  /** A report whose columns all come from one table or view that the source
      holds is never rejected. */
  lemma ResolvesWhenSingleKnownTable(report: ReportConfig, source: DataSource)
    requires |report.selectedColumns| > 0
    requires forall i :: 0 <= i < |report.selectedColumns| ==>
      report.selectedColumns[i].tableId == report.selectedColumns[0].tableId
    requires LookupTable(source, report.selectedColumns[0].tableId).Some?
    ensures Resolve(report, source).Ok?
    ensures Resolve(report, source).value.table == LookupTable(source, report.selectedColumns[0].tableId).value
  {
    SingleDistinctIffAllEqual(TableIds(report.selectedColumns));
    DistinctProperties(TableIds(report.selectedColumns));
  }

  /** The not-found error is reported exactly for a single-table report
      whose table is neither a table nor a view of the source. */
  lemma NotFoundExactly(report: ReportConfig, source: DataSource)
    ensures Resolve(report, source) == Rejected(NotFoundMessage) <==>
      && |report.selectedColumns| > 0
      && (forall i :: 0 <= i < |report.selectedColumns| ==>
            report.selectedColumns[i].tableId == report.selectedColumns[0].tableId)
      && LookupTable(source, report.selectedColumns[0].tableId).None?
  {
    SingleDistinctIffAllEqual(TableIds(report.selectedColumns));
    if |report.selectedColumns| > 0 {
      DistinctProperties(TableIds(report.selectedColumns));
    }
  }

  /** `caption` is the non-empty alias or name of a column `sc` names. */
  predicate CaptionIn(tables: seq<TableDef>, sc: ReportColumn, caption: string)
  {
    exists k, j :: 0 <= k < |tables| && 0 <= j < |tables[k].columns| &&
      tables[k].id == sc.tableId && tables[k].columns[j].id == sc.columnId &&
      caption != "" && (caption == tables[k].columns[j].alias || caption == tables[k].columns[j].name)
  }

  /** The caption each selected column gets from the source's tables (views
      are not searched): alias, then name, then the column id. */
  function SelectedColumnNames(report: Option<ReportConfig>, source: Option<DataSource>): (names: seq<string>)
    ensures report.None? || source.None? ==> names == []
    ensures report.Some? && source.Some? ==> |names| == |report.value.selectedColumns|
    ensures report.Some? && source.Some? ==> forall i :: 0 <= i < |names| ==>
      names[i] != "" || report.value.selectedColumns[i].columnId == ""
    ensures report.Some? && source.Some? ==> forall i :: 0 <= i < |names| ==>
      (forall k :: 0 <= k < |source.value.tables| ==> source.value.tables[k].id != report.value.selectedColumns[i].tableId) ==>
      names[i] == report.value.selectedColumns[i].columnId
    ensures report.Some? && source.Some? ==> forall i :: 0 <= i < |names| ==>
      names[i] == report.value.selectedColumns[i].columnId ||
      CaptionIn(source.value.tables, report.value.selectedColumns[i], names[i])
    ensures report.Some? && source.Some? ==> forall i :: 0 <= i < |names| ==>
      names[i] == CaptionOf(source.value.tables, report.value.selectedColumns[i])
  {
    if report.None? || source.None? then []
    else
      var cols := report.value.selectedColumns;
      seq(|cols|, i requires 0 <= i < |cols| => CaptionOf(source.value.tables, cols[i]))
  }

  /** The caption of one selected column: the alias, else the name, else
      the id, of the first column with its id in the first table with its
      table id; the column id when either lookup fails. */
  function CaptionOf(tables: seq<TableDef>, sc: ReportColumn): (caption: string)
    ensures (forall k :: 0 <= k < |tables| ==> tables[k].id != sc.tableId) ==> caption == sc.columnId
    ensures forall k :: FirstTable(tables, sc.tableId, k) ==> caption == CaptionInTable(tables[k], sc.columnId)
    ensures caption == sc.columnId || CaptionIn(tables, sc, caption)
  {
    match FindIndex(tables, TableIdIs(sc.tableId))
    case None => sc.columnId
    case Some(k) =>
      assert forall i :: FirstTable(tables, sc.tableId, i) ==> i == k;
      CaptionInTable(tables[k], sc.columnId)
  }

  /** The caption of column `columnId` within a table that was found. */
  function CaptionInTable(table: TableDef, columnId: string): (caption: string)
    ensures !HasColumn(table.columns, columnId) ==> caption == columnId
    ensures forall j :: FirstColumn(table.columns, columnId, j) ==>
      caption == OrElse(OrElse(table.columns[j].alias, table.columns[j].name), columnId)
    ensures caption == columnId ||
      exists j :: 0 <= j < |table.columns| && table.columns[j].id == columnId &&
        caption != "" && (caption == table.columns[j].alias || caption == table.columns[j].name)
  {
    match FindIndex(table.columns, ColumnIdIs(columnId))
    case None => columnId
    case Some(j) =>
      assert HasColumn(table.columns, columnId);
      assert forall k :: FirstColumn(table.columns, columnId, k) ==> k == j;
      var c := table.columns[j];
      OrElse(OrElse(c.alias, c.name), columnId)
  }

  // ---------------------------------------------------------------------
  // Export

  /** One exported record: each displayed column's caption mapped to the
      rendered cell; of two columns with the same caption the later wins. */
  function ExportRow(host: Host, row: Row, cols: seq<DisplayedColumn>): map<string, string>
  {
    if |cols| == 0 then map[]
    else ExportRow(host, row, cols[..|cols| - 1])[cols[|cols| - 1].caption := FormatValue(host, row, cols[|cols| - 1])]
  }

  /** An exported record has a property for exactly the captions of the
      displayed columns. */
  lemma {:induction false} ExportRowKeys(host: Host, row: Row, cols: seq<DisplayedColumn>, c: string)
    ensures c in ExportRow(host, row, cols) <==> exists i :: 0 <= i < |cols| && cols[i].caption == c
  {
    if |cols| > 0 {
      var prefix := cols[..|cols| - 1];
      ExportRowKeys(host, row, prefix, c);
      if c in ExportRow(host, row, prefix) {
        var i :| 0 <= i < |prefix| && prefix[i].caption == c;
        assert cols[i] == prefix[i];
      }
      if exists i :: 0 <= i < |cols| && cols[i].caption == c {
        var i :| 0 <= i < |cols| && cols[i].caption == c;
        if i < |prefix| {
          assert prefix[i] == cols[i];
        }
      }
    }
  }

  /** The property for a caption holds the rendering of the last displayed
      column with that caption. */
  lemma {:induction false} ExportRowValue(host: Host, row: Row, cols: seq<DisplayedColumn>, i: nat)
    requires i < |cols|
    requires forall j :: i < j < |cols| ==> cols[j].caption != cols[i].caption
    ensures cols[i].caption in ExportRow(host, row, cols)
    ensures ExportRow(host, row, cols)[cols[i].caption] == FormatValue(host, row, cols[i])
  {
    var prefix := cols[..|cols| - 1];
    if i < |prefix| {
      assert prefix[i] == cols[i];
      ExportRowValue(host, row, prefix, i);
    }
  }

  function ExportRows(host: Host, rows: seq<Row>, cols: seq<DisplayedColumn>): (out: seq<map<string, string>>)
    ensures |out| == |rows|
    ensures forall i :: 0 <= i < |rows| ==> out[i] == ExportRow(host, rows[i], cols)
  {
    seq(|rows|, i requires 0 <= i < |rows| => ExportRow(host, rows[i], cols))
  }

  predicate IsAlnum(c: char)
  {
    ('a' <= c <= 'z') || ('A' <= c <= 'Z') || ('0' <= c <= '9')
  }

  /** `s` without its leading run of non-alphanumeric characters. */
  function DropSeparators(s: string): (r: string)
    ensures |r| <= |s|
    ensures |r| > 0 ==> IsAlnum(r[0])
    ensures r == s[|s| - |r|..]
    ensures forall i :: 0 <= i < |s| - |r| ==> !IsAlnum(s[i])
  {
    if |s| == 0 || IsAlnum(s[0]) then s else DropSeparators(s[1..])
  }

  /** `s.replace(/[^a-z0-9]+/gi, '_')`: every maximal run of characters
      other than ASCII letters and digits becomes one underscore. */
  function Sanitize(s: string): (r: string)
    ensures |r| <= |s|
    ensures |r| == 0 <==> |s| == 0
    ensures forall i :: 0 <= i < |r| ==> IsAlnum(r[i]) || r[i] == '_'
    ensures |s| > 0 ==> (IsAlnum(s[0]) ==> r[0] == s[0]) && (!IsAlnum(s[0]) ==> r[0] == '_')
    decreases |s|
  {
    if |s| == 0 then ""
    else if IsAlnum(s[0]) then [s[0]] + Sanitize(s[1..])
    else "_" + Sanitize(DropSeparators(s[1..]))
  }

  /** The letters and digits of `s`, in order. */
  function Alnums(s: string): string
  {
    if |s| == 0 then "" else (if IsAlnum(s[0]) then [s[0]] else "") + Alnums(s[1..])
  }

  lemma {:induction false} DropSeparatorsKeepsAlnums(s: string)
    ensures Alnums(DropSeparators(s)) == Alnums(s)
  {
    if |s| > 0 && !IsAlnum(s[0]) {
      DropSeparatorsKeepsAlnums(s[1..]);
    }
  }

  /** Sanitising keeps every letter and digit, in order, and never puts
      two underscores side by side. */
  lemma {:induction false} SanitizeProperties(s: string)
    ensures Alnums(Sanitize(s)) == Alnums(s)
    ensures forall i :: 0 <= i < |Sanitize(s)| - 1 ==> !(Sanitize(s)[i] == '_' && Sanitize(s)[i + 1] == '_')
    decreases |s|
  {
    if |s| > 0 {
      if IsAlnum(s[0]) {
        SanitizeProperties(s[1..]);
        var r := Sanitize(s);
        assert r == [s[0]] + Sanitize(s[1..]);
        assert forall i :: 1 <= i < |r| ==> r[i] == Sanitize(s[1..])[i - 1];
      } else {
        var rest := DropSeparators(s[1..]);
        SanitizeProperties(rest);
        DropSeparatorsKeepsAlnums(s[1..]);
        var r := Sanitize(s);
        assert r == "_" + Sanitize(rest);
        assert forall i :: 1 <= i < |r| ==> r[i] == Sanitize(rest)[i - 1];
        if |rest| > 0 {
          assert IsAlnum(rest[0]);
        }
      }
    }
  }

  /** A string that is empty or starts with a letter or digit has no
      leading separators to drop. */
  lemma DropSeparatorsNoop(s: string)
    requires |s| == 0 || IsAlnum(s[0])
    ensures DropSeparators(s) == s
  {
  }

  /** Dropping leading separators of a string that ends in a letter or digit
      never reaches what follows it. */
  lemma {:induction false} DropSeparatorsAppend(x: string, y: string)
    requires |x| > 0 && IsAlnum(x[|x| - 1])
    ensures DropSeparators(x + y) == DropSeparators(x) + y
  {
    if !IsAlnum(x[0]) {
      assert (x + y)[1..] == x[1..] + y;
      DropSeparatorsAppend(x[1..], y);
    }
  }

  /** One run of separators between two alphanumeric ends becomes exactly
      one underscore: `a + sep + b` sanitises to the sanitised `a`, `_`, and
      the sanitised `b`. */
  lemma {:induction false} SanitizeRun(a: string, sep: string, b: string)
    requires |a| == 0 || IsAlnum(a[|a| - 1])
    requires |sep| > 0 && forall i :: 0 <= i < |sep| ==> !IsAlnum(sep[i])
    requires |b| == 0 || IsAlnum(b[0])
    ensures Sanitize(a + sep + b) == Sanitize(a) + "_" + Sanitize(b)
    decreases |a|
  {
    if |a| == 0 {
      assert a + sep + b == sep + b;
      DropSeparatorsAfterRun(sep, b);
    } else if IsAlnum(a[0]) {
      SanitizeRun(a[1..], sep, b);
      SanitizeRunAlnumHead(a, sep, b);
    } else {
      var a' := DropSeparators(a[1..]);
      assert a'[|a'| - 1] == a[|a| - 1];
      SanitizeRun(a', sep, b);
      SanitizeRunSeparatorHead(a, sep, b);
    }
  }

  lemma TailOfJoin(a: string, sep: string, b: string)
    requires |a| > 0
    ensures (a + sep + b)[0] == a[0]
    ensures (a + sep + b)[1..] == a[1..] + sep + b == a[1..] + (sep + b)
  {
  }

  lemma Regroup(a: string, sep: string, b: string)
    ensures a + (sep + b) == a + sep + b
  {
  }

  lemma PrependToRun(x: string, p: string, q: string)
    ensures x + (p + "_" + q) == x + p + "_" + q
  {
  }

  lemma SanitizeLetterFirst(s: string)
    requires |s| > 0 && IsAlnum(s[0])
    ensures Sanitize(s) == [s[0]] + Sanitize(s[1..])
  {
  }

  lemma SanitizeSeparatorFirst(s: string)
    requires |s| > 0 && !IsAlnum(s[0])
    ensures Sanitize(s) == "_" + Sanitize(DropSeparators(s[1..]))
  {
  }

  lemma SanitizeRunAlnumHead(a: string, sep: string, b: string)
    requires |a| > 0 && IsAlnum(a[0])
    requires Sanitize(a[1..] + sep + b) == Sanitize(a[1..]) + "_" + Sanitize(b)
    ensures Sanitize(a + sep + b) == Sanitize(a) + "_" + Sanitize(b)
  {
    var s := a + sep + b;
    var p, q := Sanitize(a[1..]), Sanitize(b);
    TailOfJoin(a, sep, b);
    SanitizeLetterFirst(s);
    SanitizeLetterFirst(a);
    PrependToRun([a[0]], p, q);
  }

  lemma SanitizeRunSeparatorHead(a: string, sep: string, b: string)
    requires |a| > 0 && !IsAlnum(a[0]) && IsAlnum(a[|a| - 1])
    requires |sep| > 0
    requires Sanitize(DropSeparators(a[1..]) + sep + b) == Sanitize(DropSeparators(a[1..])) + "_" + Sanitize(b)
    ensures Sanitize(a + sep + b) == Sanitize(a) + "_" + Sanitize(b)
  {
    var s := a + sep + b;
    var a' := DropSeparators(a[1..]);
    TailOfJoin(a, sep, b);
    DropSeparatorsAppend(a[1..], sep + b);
    Regroup(a', sep, b);
    var p, q := Sanitize(a'), Sanitize(b);
    SanitizeSeparatorFirst(s);
    SanitizeSeparatorFirst(a);
    PrependToRun("_", p, q);
  }

  /** A run of separators followed by an empty or alphanumeric-led string
      sanitises to one underscore before it. */
  lemma DropSeparatorsAfterRun(sep: string, b: string)
    requires |sep| > 0 && forall i :: 0 <= i < |sep| ==> !IsAlnum(sep[i])
    requires |b| == 0 || IsAlnum(b[0])
    ensures Sanitize(sep + b) == "_" + Sanitize(b)
  {
    assert (sep + b)[1..] == sep[1..] + b;
    SkipRun(sep[1..], b);
  }

  lemma {:induction false} SkipRun(sep: string, b: string)
    requires forall i :: 0 <= i < |sep| ==> !IsAlnum(sep[i])
    requires |b| == 0 || IsAlnum(b[0])
    ensures DropSeparators(sep + b) == b
  {
    if |sep| == 0 {
      assert sep + b == b;
    } else {
      assert (sep + b)[1..] == sep[1..] + b;
      SkipRun(sep[1..], b);
    }
  }

  /** Sanitising a sanitised name changes nothing. */
  lemma {:induction false} SanitizeIdempotent(s: string)
    ensures Sanitize(Sanitize(s)) == Sanitize(s)
    decreases |s|
  {
    if |s| > 0 {
      var r := Sanitize(s);
      if IsAlnum(s[0]) {
        var tail := Sanitize(s[1..]);
        assert r == [s[0]] + tail;
        SanitizeIdempotent(s[1..]);
        assert r[1..] == tail;
        assert Sanitize(r) == [s[0]] + Sanitize(tail);
      } else {
        var rest := DropSeparators(s[1..]);
        var tail := Sanitize(rest);
        assert r == "_" + tail;
        assert r[1..] == tail;
        SanitizeIdempotent(rest);
        DropSeparatorsNoop(tail);
        assert Sanitize(r) == "_" + Sanitize(DropSeparators(tail));
      }
    }
  }

  /** The base of the export file name: the sanitised report name, or
      "report" when the name is empty. */
  function SafeName(name: string): (r: string)
    ensures name == "" ==> r == "report"
    ensures name != "" ==> r == Sanitize(name)
  {
    OrElse(Sanitize(name), "report")
  }

  datatype Export = Export(records: seq<map<string, string>>, baseName: string)

  // ---------------------------------------------------------------------
  // The view

  /** The part of the view a run of the report rewrites. */
  datatype ViewState = ViewState(
    loading: bool,
    error: Option<string>,
    data: seq<Row>,
    displayedColumns: seq<DisplayedColumn>,
    dataOrigin: Option<DataOrigin>,
    recordsCount: Option<nat>,
    executionMs: Option<int>)

  const MissingMessage := "Report or data source not found."

  /** The message shown when the collaborator fails. */
  function FailureMessage(kind: SourceKind): string
  {
    if kind == Custom then "Failed to generate AI data." else "Failed to fetch live data."
  }

  /** One run of the report: the view it leaves behind and the request it
      issued, if any. Without a report or a source only the error changes;
      otherwise the previous results are cleared before anything else. */
  function RunOutcome(prev: ViewState, report: Option<ReportConfig>, source: Option<DataSource>,
                      respond: FetchRequest -> FetchResponse, elapsedMs: int): (r: (ViewState, Option<FetchRequest>))
    ensures !r.0.loading
    ensures report.None? || source.None? ==>
      r == (prev.(loading := false, error := Some(MissingMessage)), None)
    ensures report.Some? && source.Some? ==>
      (r.1.None? <==> Resolve(report.value, source.value).Rejected?)
    ensures report.Some? && source.Some? && r.1.Some? ==>
      && r.1.value == Resolve(report.value, source.value).value.request
      && r.0.displayedColumns == Resolve(report.value, source.value).value.columns
    ensures report.Some? && source.Some? && r.0.error.Some? ==>
      && r.0.data == [] && r.0.dataOrigin == None && r.0.recordsCount == None && r.0.executionMs == None
    ensures report.Some? && source.Some? && r.0.error.None? ==>
      && r.1.Some? && respond(r.1.value) != FetchFailed
      && r.0.recordsCount == Some(|r.0.data|) && r.0.executionMs == Some(elapsedMs)
      && r.0.dataOrigin == Some(if source.value.kind == Custom then Ai else Live)
      && (r.0.data != [] ==> respond(r.1.value) == Delivered(r.0.data))
  {
    if report.None? || source.None? then
      (prev.(loading := false, error := Some(MissingMessage)), None)
    else
      var cleared := ViewState(false, None, [], [], None, None, None);
      match Resolve(report.value, source.value)
      case Rejected(m) => (cleared.(error := Some(m)), None)
      case Ok(res) => (Shown(res.columns, respond(res.request), source.value.kind, elapsedMs), Some(res.request))
  }

  /** The view once the collaborator has answered a resolved report. */
  function Shown(columns: seq<DisplayedColumn>, response: FetchResponse, kind: SourceKind, elapsedMs: int): ViewState
  {
    var shown := ViewState(false, None, [], columns, None, None, None);
    match response
    case FetchFailed => shown.(error := Some(FailureMessage(kind)))
    case DeliveredNothing =>
      shown.(dataOrigin := Some(if kind == Custom then Ai else Live), recordsCount := Some(0), executionMs := Some(elapsedMs))
    case Delivered(rows) =>
      shown.(data := rows, dataOrigin := Some(if kind == Custom then Ai else Live),
             recordsCount := Some(|rows|), executionMs := Some(elapsedMs))
  }

  /** What a run shows follows from the resolution and the response: a
      rejection shows its own message, delivered rows are shown as they
      came, an empty answer shows no rows, and a failure shows the
      message for the source's kind. */
  lemma RunShowsResponse(prev: ViewState, report: ReportConfig, source: DataSource,
                         respond: FetchRequest -> FetchResponse, elapsedMs: int)
    ensures var r := RunOutcome(prev, Some(report), Some(source), respond, elapsedMs);
      && (Resolve(report, source).Rejected? ==> r.0.error == Some(Resolve(report, source).message))
      && (r.1.Some? && respond(r.1.value).Delivered? ==>
            r.0.error.None? && r.0.data == respond(r.1.value).rows && r.0.recordsCount == Some(|r.0.data|))
      && (r.1.Some? && respond(r.1.value) == DeliveredNothing ==>
            r.0.error.None? && r.0.data == [] && r.0.recordsCount == Some(0))
      && (r.1.Some? && respond(r.1.value) == FetchFailed ==> r.0.error == Some(FailureMessage(source.kind)))
  {
  }

  /** A failed run never leaves rows of an earlier run on screen. */
  lemma FailedRunShowsNoRows(prev: ViewState, report: ReportConfig, source: DataSource,
                             respond: FetchRequest -> FetchResponse, elapsedMs: int)
    requires Resolve(report, source).Ok?
    requires respond(Resolve(report, source).value.request) == FetchFailed
    ensures var r := RunOutcome(prev, Some(report), Some(source), respond, elapsedMs);
      r.0.error == Some(FailureMessage(source.kind)) && r.0.data == [] && r.0.recordsCount == None
  {
  }

  class Viewer {
    var report: Option<ReportConfig>
    var dataSource: Option<DataSource>
    var loading: bool
    var error: Option<string>
    var data: seq<Row>
    var displayedColumns: seq<DisplayedColumn>
    var dataOrigin: Option<DataOrigin>
    var recordsCount: Option<nat>
    var executionMs: Option<int>

    function State(): ViewState
      reads this
    {
      ViewState(loading, error, data, displayedColumns, dataOrigin, recordsCount, executionMs)
    }

    constructor (report: Option<ReportConfig>, dataSource: Option<DataSource>)
      ensures this.report == report && this.dataSource == dataSource
      ensures State() == ViewState(true, None, [], [], None, None, None)
    {
      this.report := report;
      this.dataSource := dataSource;
      loading := true;
      error := None;
      data := [];
      displayedColumns := [];
      dataOrigin := None;
      recordsCount := None;
      executionMs := None;
    }

    /** Run the report once. `respond` stands for the two fetch
        collaborators and `elapsedMs` for the clock; `issued` is the request
        made, if any. */
    method FetchReportData(respond: FetchRequest -> FetchResponse, elapsedMs: int) returns (issued: Option<FetchRequest>)
      modifies this
      ensures report == old(report) && dataSource == old(dataSource)
      ensures (State(), issued) == RunOutcome(old(State()), report, dataSource, respond, elapsedMs)
    {
      if report.None? || dataSource.None? {
        error := Some(MissingMessage);
        loading := false;
        issued := None;
        return;
      }
      error := None;
      loading := true;
      data := [];
      displayedColumns := [];
      dataOrigin := None;
      recordsCount := None;
      executionMs := None;

      match Resolve(report.value, dataSource.value)
      case Rejected(m) =>
        error := Some(m);
        loading := false;
        issued := None;
      case Ok(res) =>
        displayedColumns := res.columns;
        issued := Some(res.request);
        ShowResponse(respond(res.request), dataSource.value.kind, elapsedMs);
    }

    /** Record the collaborator's answer on the cleared view. */
    method ShowResponse(response: FetchResponse, kind: SourceKind, elapsedMs: int)
      requires !error.Some? && data == [] && dataOrigin.None? && recordsCount.None? && executionMs.None?
      modifies this
      ensures report == old(report) && dataSource == old(dataSource)
      ensures State() == Shown(old(displayedColumns), response, kind, elapsedMs)
    {
      var isAi := kind == Custom;
      match response
      case FetchFailed =>
        error := Some(FailureMessage(kind));
        loading := false;
      case DeliveredNothing =>
        dataOrigin := Some(if isAi then Ai else Live);
        recordsCount := Some(0);
        executionMs := Some(elapsedMs);
        loading := false;
      case Delivered(rows) =>
        data := rows;
        dataOrigin := Some(if isAi then Ai else Live);
        recordsCount := Some(|rows|);
        executionMs := Some(elapsedMs);
        loading := false;
    }

    /** The records and file-name base handed to the spreadsheet writer;
        None when there is no report or no row to export. */
    method ExportToExcel(host: Host) returns (result: Option<Export>)
      ensures report.None? || |data| == 0 ==> result == None
      ensures report.Some? && |data| > 0 ==>
        result == Some(Export(ExportRows(host, data, displayedColumns), SafeName(report.value.name)))
    {
      if report.None? || |data| == 0 {
        return None;
      }
      var records: seq<map<string, string>> := [];
      var i := 0;
      while i < |data|
        invariant 0 <= i <= |data|
        invariant records == ExportRows(host, data[..i], displayedColumns)
      {
        var out: map<string, string> := map[];
        var j := 0;
        while j < |displayedColumns|
          invariant 0 <= j <= |displayedColumns|
          invariant out == ExportRow(host, data[i], displayedColumns[..j])
        {
          var col := displayedColumns[j];
          out := out[col.caption := FormatValue(host, data[i], col)];
          assert displayedColumns[..j + 1][..j] == displayedColumns[..j];
          j := j + 1;
        }
        assert displayedColumns[..j] == displayedColumns;
        records := records + [out];
        i := i + 1;
      }
      assert data[..i] == data;
      result := Some(Export(records, SafeName(report.value.name)));
    }
  }
}
