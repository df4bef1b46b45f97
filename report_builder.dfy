/** The report builder: the editor that keeps one in-progress report
    definition consistent while the user picks a data source, columns,
    per-column formatting, filters and sorts.

    The pure parts (the operator table, the value-arity predicates, default
    formatting, column lookups and the list surgery behind every edit) are
    module-level functions with lemmas; the `Builder` class holds the edited
    `config` and the loaded data sources and applies those functions to its
    fields. */
module ReportBuilder {
  import opened Models
  import opened Seqs

  // ---------------------------------------------------------------------
  // Operator compatibility table

  datatype OperatorOption = OperatorOption(value: Operator, caption: string)

  /** The filter operators offered for a column type, in menu order. */
  function OperatorsForType(columnType: string): (ops: seq<OperatorOption>)
    ensures |ops| > 0 && ops[0].value == Equals
    ensures forall i, j :: 0 <= i < j < |ops| ==> ops[i].value != ops[j].value
  {
    if columnType == "string" then
      [ OperatorOption(Equals, "Equals"),
        OperatorOption(NotEquals, "Not Equals"),
        OperatorOption(Contains, "Contains"),
        OperatorOption(NotContains, "Does Not Contain"),
        OperatorOption(StartsWith, "Starts With"),
        OperatorOption(EndsWith, "Ends With"),
        OperatorOption(IsEmpty, "Is Empty"),
        OperatorOption(IsNotEmpty, "Is Not Empty"),
        OperatorOption(In, "In List") ]
    else if columnType == "number" || columnType == "currency" then
      [ OperatorOption(Equals, "Equals"),
        OperatorOption(NotEquals, "Not Equals"),
        OperatorOption(Gt, "Greater Than"),
        OperatorOption(Gte, "Greater Than or Equal"),
        OperatorOption(Lt, "Less Than"),
        OperatorOption(Lte, "Less Than or Equal"),
        OperatorOption(Between, "Between"),
        OperatorOption(IsNull, "Is Null"),
        OperatorOption(IsNotNull, "Is Not Null") ]
    else if columnType == "date" then
      [ OperatorOption(Equals, "On Date"),
        OperatorOption(NotEquals, "Not On Date"),
        OperatorOption(Gt, "After"),
        OperatorOption(Gte, "On or After"),
        OperatorOption(Lt, "Before"),
        OperatorOption(Lte, "On or Before"),
        OperatorOption(Between, "Between Dates"),
        OperatorOption(IsNull, "Is Null"),
        OperatorOption(IsNotNull, "Is Not Null"),
        OperatorOption(Today, "Is Today"),
        OperatorOption(ThisWeek, "This Week"),
        OperatorOption(ThisMonth, "This Month"),
        OperatorOption(ThisYear, "This Year") ]
    else if columnType == "boolean" then
      [ OperatorOption(Equals, "Is"),
        OperatorOption(IsNull, "Is Null"),
        OperatorOption(IsNotNull, "Is Not Null") ]
    else
      [ OperatorOption(Equals, "Equals"),
        OperatorOption(NotEquals, "Not Equals"),
        OperatorOption(Contains, "Contains"),
        OperatorOption(IsNull, "Is Null"),
        OperatorOption(IsNotNull, "Is Not Null") ]
  }

  /** `op` is one of the entries of the menu `ops`. */
  predicate Offers(ops: seq<OperatorOption>, op: Operator)
  {
    exists i :: 0 <= i < |ops| && ops[i].value == op
  }

  predicate IsRangeType(columnType: string)
  {
    columnType == "number" || columnType == "currency" || columnType == "date"
  }

  predicate IsPeriod(op: Operator)
  {
    op == Today || op == ThisWeek || op == ThisMonth || op == ThisYear
  }

  /** `between` is offered exactly for number, currency and date columns. */
  lemma BetweenOnlyForRanges(columnType: string)
    ensures Offers(OperatorsForType(columnType), Between) <==> IsRangeType(columnType)
  {
    var ops := OperatorsForType(columnType);
    if IsRangeType(columnType) {
      assert ops[6].value == Between;
    }
  }

  /** The calendar-period operators are offered exactly for date columns. */
  lemma PeriodsOnlyForDates(columnType: string, op: Operator)
    requires IsPeriod(op)
    ensures Offers(OperatorsForType(columnType), op) <==> columnType == "date"
  {
    var ops := OperatorsForType(columnType);
    if columnType == "date" {
      assert ops[9].value == Today && ops[10].value == ThisWeek;
      assert ops[11].value == ThisMonth && ops[12].value == ThisYear;
    }
  }

  /** Filters need no value for these eight operators. */
  function NeedsValueInput(op: Operator): (r: bool)
    ensures !r <==> op == IsNull || op == IsNotNull || op == IsEmpty || op == IsNotEmpty || IsPeriod(op)
  {
    !(op in [IsNull, IsNotNull, IsEmpty, IsNotEmpty, Today, ThisWeek, ThisMonth, ThisYear])
  }

  /** Only `between` takes a second value. */
  function NeedsTwoValues(op: Operator): (r: bool)
    ensures r ==> NeedsValueInput(op)
    ensures r <==> op == Between
  {
    op == Between
  }

  /** The arity predicates agree with the operator table: a two-valued
      operator is only offered for range types, a two-valued operator always
      needs a value, and the value-free operators a type offers are its
      null/empty tests and, for dates, the calendar periods. */
  lemma ArityAgreesWithTable(columnType: string, op: Operator)
    requires Offers(OperatorsForType(columnType), op)
    ensures NeedsTwoValues(op) ==> IsRangeType(columnType) && NeedsValueInput(op)
    ensures !NeedsValueInput(op) <==>
      (op == IsNull || op == IsNotNull || op == IsEmpty || op == IsNotEmpty || IsPeriod(op))
    ensures !NeedsValueInput(op) && IsPeriod(op) ==> columnType == "date"
    ensures !NeedsValueInput(op) && (op == IsEmpty || op == IsNotEmpty) ==> columnType == "string"
  {
    if NeedsTwoValues(op) {
      BetweenOnlyForRanges(columnType);
    }
    if IsPeriod(op) {
      PeriodsOnlyForDates(columnType, op);
    }
  }

  // ---------------------------------------------------------------------
  // Default formatting

  /** The type tag a formatting configuration carries. */
  function Tag(f: FormattingConfig): string
  {
    match f
    case DateFormat(_) => "date"
    case NumberFormat(_) => "number"
    case CurrencyFormat(_) => "currency"
    case BooleanFormat(_) => "boolean"
    case StringFormat(_) => "string"
    case NoFormat => "none"
  }

  /** The formatting a column gets when formatting is switched on. */
  function DefaultFormatting(columnType: ColumnType): (f: FormattingConfig)
    ensures Tag(f) == TypeName(columnType)
  {
    match columnType
    case DateType => DateFormat(DateFormatting("MM/DD/YYYY"))
    case NumberType => NumberFormat(NumberFormatting(2, true, "", ""))
    case CurrencyType => CurrencyFormat(CurrencyFormatting("$", 2, true, "before"))
    case BooleanType => BooleanFormat(BooleanFormatting("true/false"))
    case StringType => StringFormat(StringFormatting("none", None))
  }

  // ---------------------------------------------------------------------
  // Schema lookups

  function IsExposed(): TableDef -> bool
  {
    (t: TableDef) => t.exposed
  }

  /** The type of column `columnId` of the first table or view with id
      `tableId`; "string" when either lookup fails. */
  function ColumnTypeOf(tables: seq<TableDef>, tableId: string, columnId: string): (t: ColumnType)
    ensures (forall i :: 0 <= i < |tables| ==> tables[i].id != tableId) ==> t == StringType
    ensures forall i :: FirstTable(tables, tableId, i) && !HasColumn(tables[i].columns, columnId) ==> t == StringType
    ensures forall i, j :: FirstTable(tables, tableId, i) && FirstColumn(tables[i].columns, columnId, j) ==>
      t == tables[i].columns[j].colType
  {
    match FindIndex(tables, TableIdIs(tableId))
    case None => StringType
    case Some(i) =>
      match FindIndex(tables[i].columns, ColumnIdIs(columnId))
      case None => StringType
      case Some(j) => tables[i].columns[j].colType
  }

  /** The "table.column" label the builder shows for a selected column. */
  function ColumnName(sourcesLoaded: bool, tables: seq<TableDef>, tableId: string, columnId: string): (text: string)
    ensures !sourcesLoaded ==> text == "Loading..."
    ensures sourcesLoaded && (forall i :: 0 <= i < |tables| ==> tables[i].id != tableId) ==>
      text == "[Table Not Found].[Column Not Found]"
    ensures forall i :: sourcesLoaded && FirstTable(tables, tableId, i) ==> text == LabelIn(tables[i], columnId)
  {
    if !sourcesLoaded then "Loading..."
    else match FindIndex(tables, TableIdIs(tableId))
      case None => "[Table Not Found].[Column Not Found]"
      case Some(i) =>
        assert forall k :: FirstTable(tables, tableId, k) ==> k == i;
        LabelIn(tables[i], columnId)
  }

  /** The label of column `columnId` within a table that was found. */
  function LabelIn(table: TableDef, columnId: string): (text: string)
    ensures !HasColumn(table.columns, columnId) ==> text == OrElse(table.alias, table.name) + ".[Column Not Found]"
    ensures forall j :: FirstColumn(table.columns, columnId, j) ==>
      text == OrElse(OrElse(table.alias, table.name), "Unknown Table") + "." +
              OrElse(OrElse(table.columns[j].alias, table.columns[j].name), "Unknown Column")
  {
    match FindIndex(table.columns, ColumnIdIs(columnId))
    case None => OrElse(table.alias, table.name) + ".[Column Not Found]"
    case Some(j) =>
      assert HasColumn(table.columns, columnId);
      assert forall k :: FirstColumn(table.columns, columnId, k) ==> k == j;
      var column := table.columns[j];
      OrElse(OrElse(table.alias, table.name), "Unknown Table") + "." +
      OrElse(OrElse(column.alias, column.name), "Unknown Column")
  }

  /** One entry of the "all columns" picker. */
  datatype ColumnRef = ColumnRef(tableId: string, columnId: string, displayName: string)

  function DisplayName(table: TableDef, column: ColumnDef): string
  {
    OrElse(table.alias, table.name) + "." + OrElse(column.alias, column.name)
  }

  /** The picker entries of one table, in column order. */
  function TableRefs(table: TableDef): (refs: seq<ColumnRef>)
    ensures |refs| == |table.columns|
    ensures forall j :: 0 <= j < |refs| ==>
      refs[j] == ColumnRef(table.id, table.columns[j].id, DisplayName(table, table.columns[j]))
  {
    seq(|table.columns|, j requires 0 <= j < |table.columns| =>
      ColumnRef(table.id, table.columns[j].id, DisplayName(table, table.columns[j])))
  }

  /** Every column of every given table, table by table. */
  function AllColumns(tables: seq<TableDef>): seq<ColumnRef>
  {
    if |tables| == 0 then [] else AllColumns(tables[..|tables| - 1]) + TableRefs(tables[|tables| - 1])
  }

  /** The nested `forEach` that builds the picker entries column by column. */
  method CollectColumns(tables: seq<TableDef>) returns (columns: seq<ColumnRef>)
    ensures columns == AllColumns(tables)
  {
    columns := [];
    var i := 0;
    while i < |tables|
      invariant 0 <= i <= |tables|
      invariant columns == AllColumns(tables[..i])
    {
      var table := tables[i];
      var j := 0;
      while j < |table.columns|
        invariant 0 <= j <= |table.columns|
        invariant columns == AllColumns(tables[..i]) + TableRefs(table)[..j]
      {
        columns := columns + [ColumnRef(table.id, table.columns[j].id, DisplayName(table, table.columns[j]))];
        j := j + 1;
      }
      assert tables[..i + 1][..i] == tables[..i];
      i := i + 1;
    }
    assert tables[..i] == tables;
  }

  /** Each picker entry names a column of one of the tables it came from. */
  lemma {:induction false} AllColumnsSound(tables: seq<TableDef>, k: nat)
    requires k < |AllColumns(tables)|
    ensures exists i, j ::
      && 0 <= i < |tables| && 0 <= j < |tables[i].columns|
      && AllColumns(tables)[k] == ColumnRef(tables[i].id, tables[i].columns[j].id, DisplayName(tables[i], tables[i].columns[j]))
  {
    var n := |tables|;
    var prefix := tables[..n - 1];
    if k < |AllColumns(prefix)| {
      AllColumnsSound(prefix, k);
      var i, j :| 0 <= i < |prefix| && 0 <= j < |prefix[i].columns| &&
        AllColumns(prefix)[k] == ColumnRef(prefix[i].id, prefix[i].columns[j].id, DisplayName(prefix[i], prefix[i].columns[j]));
      assert prefix[i] == tables[i];
    } else {
      var j := k - |AllColumns(prefix)|;
      assert AllColumns(tables)[k] == TableRefs(tables[n - 1])[j];
    }
  }

  /** Each column of each table has its picker entry. */
  lemma {:induction false} AllColumnsComplete(tables: seq<TableDef>, i: nat, j: nat)
    requires i < |tables| && j < |tables[i].columns|
    ensures ColumnRef(tables[i].id, tables[i].columns[j].id, DisplayName(tables[i], tables[i].columns[j])) in AllColumns(tables)
  {
    var n := |tables|;
    if i < n - 1 {
      AllColumnsComplete(tables[..n - 1], i, j);
    } else {
      assert TableRefs(tables[i])[j] in TableRefs(tables[n - 1]);
    }
  }

  // ---------------------------------------------------------------------
  // Column selection

  function NewColumn(tableId: string, columnId: string): ReportColumn
  {
    ReportColumn(tableId, columnId, "", None)
  }

  predicate Matches(c: ReportColumn, tableId: string, columnId: string)
  {
    c.tableId == tableId && c.columnId == columnId
  }

  predicate IsSelected(cols: seq<ReportColumn>, tableId: string, columnId: string)
  {
    exists k :: 0 <= k < |cols| && Matches(cols[k], tableId, columnId)
  }

  /** No two selected columns name the same (table, column) pair. */
  predicate UniquePairs(cols: seq<ReportColumn>)
  {
    forall i, j :: 0 <= i < j < |cols| ==>
      !(cols[i].tableId == cols[j].tableId && cols[i].columnId == cols[j].columnId)
  }

  /** The selection after toggling one pair: the first matching entry is
      dropped, or a fresh unformatted entry is appended. */
  function Toggled(cols: seq<ReportColumn>, tableId: string, columnId: string): (r: seq<ReportColumn>)
    ensures !IsSelected(cols, tableId, columnId) ==> r == cols + [NewColumn(tableId, columnId)]
    ensures IsSelected(cols, tableId, columnId) ==>
      exists k :: 0 <= k < |cols| && Matches(cols[k], tableId, columnId) &&
        (forall j :: 0 <= j < k ==> !Matches(cols[j], tableId, columnId)) &&
        r == cols[..k] + cols[k + 1..]
  {
    match FindIndex(cols, (c: ReportColumn) => Matches(c, tableId, columnId))
    case None => cols + [NewColumn(tableId, columnId)]
    case Some(k) => RemoveAt(cols, k)
  }

  /** Toggling an unselected pair twice gives back the original selection. */
  lemma ToggleTwiceRestores(cols: seq<ReportColumn>, tableId: string, columnId: string)
    requires !IsSelected(cols, tableId, columnId)
    ensures Toggled(Toggled(cols, tableId, columnId), tableId, columnId) == cols
  {
    var once := Toggled(cols, tableId, columnId);
    assert once[|cols|] == NewColumn(tableId, columnId);
    var k :| 0 <= k < |once| && Matches(once[k], tableId, columnId) &&
      (forall j :: 0 <= j < k ==> !Matches(once[j], tableId, columnId)) &&
      Toggled(once, tableId, columnId) == once[..k] + once[k + 1..];
    assert k == |cols|;
    assert once[..k] == cols;
  }

  /** Dropping one entry keeps a selection free of duplicate pairs and
      leaves no entry for the dropped entry's pair. */
  lemma {:induction false} RemoveKeepsUnique(cols: seq<ReportColumn>, k: nat)
    requires UniquePairs(cols) && k < |cols|
    ensures UniquePairs(RemoveAt(cols, k))
    ensures !IsSelected(RemoveAt(cols, k), cols[k].tableId, cols[k].columnId)
  {
    var r := RemoveAt(cols, k);
    forall i, j | 0 <= i < j < |r|
      ensures !(r[i].tableId == r[j].tableId && r[i].columnId == r[j].columnId)
    {
      var i' := if i < k then i else i + 1;
      var j' := if j < k then j else j + 1;
      assert r[i] == cols[i'] && r[j] == cols[j'] && i' < j';
    }
  }

  /** On a selection without duplicate pairs, toggling keeps it duplicate
      free and flips whether the pair is selected. */
  lemma ToggleFlipsSelection(cols: seq<ReportColumn>, tableId: string, columnId: string)
    requires UniquePairs(cols)
    ensures UniquePairs(Toggled(cols, tableId, columnId))
    ensures IsSelected(Toggled(cols, tableId, columnId), tableId, columnId) <==> !IsSelected(cols, tableId, columnId)
  {
    var r := Toggled(cols, tableId, columnId);
    if IsSelected(cols, tableId, columnId) {
      var k :| 0 <= k < |cols| && Matches(cols[k], tableId, columnId) &&
        (forall j :: 0 <= j < k ==> !Matches(cols[j], tableId, columnId)) &&
        r == cols[..k] + cols[k + 1..];
      assert r == RemoveAt(cols, k);
      RemoveKeepsUnique(cols, k);
    } else {
      assert r == cols + [NewColumn(tableId, columnId)];
      assert Matches(r[|cols|], tableId, columnId);
    }
  }

  // ---------------------------------------------------------------------
  // Per-column formatting

  /** The formatting a selected column shows: its own, or the default for
      its column type. */
  function ColumnFormatting(col: ReportColumn, tables: seq<TableDef>): (f: FormattingConfig)
    ensures col.formatting.None? ==> Tag(f) == TypeName(ColumnTypeOf(tables, col.tableId, col.columnId))
    ensures col.formatting.Some? ==> f == col.formatting.value
  {
    match col.formatting
    case Some(f) => f
    case None => DefaultFormatting(ColumnTypeOf(tables, col.tableId, col.columnId))
  }

  /** Every entry for the pair gets formatting `f`; the rest are untouched. */
  function WithFormatting(cols: seq<ReportColumn>, tableId: string, columnId: string, f: FormattingConfig): (r: seq<ReportColumn>)
    ensures |r| == |cols|
    ensures forall j :: 0 <= j < |r| ==>
      r[j] == if Matches(cols[j], tableId, columnId) then cols[j].(formatting := Some(f)) else cols[j]
  {
    seq(|cols|, j requires 0 <= j < |cols| =>
      if Matches(cols[j], tableId, columnId) then cols[j].(formatting := Some(f)) else cols[j])
  }

  /** Every entry for the pair loses its formatting; the rest are untouched. */
  function WithoutFormatting(cols: seq<ReportColumn>, tableId: string, columnId: string): (r: seq<ReportColumn>)
    ensures |r| == |cols|
    ensures forall j :: 0 <= j < |r| ==>
      r[j] == if Matches(cols[j], tableId, columnId) then cols[j].(formatting := None) else cols[j]
  {
    seq(|cols|, j requires 0 <= j < |cols| =>
      if Matches(cols[j], tableId, columnId) then cols[j].(formatting := None) else cols[j])
  }

  /** One field of a type-specific formatting configuration, with its new value. */
  datatype FormattingField =
    | FormatField(format: string)
    | DecimalPlacesField(places: nat)
    | ThousandSeparatorField(on: bool)
    | PrefixField(prefix: string)
    | SuffixField(suffix: string)
    | SymbolField(symbol: string)
    | SymbolPositionField(position: string)
    | StyleField(style: string)
    | CaseField(letterCase: string)
    | TruncateField(limit: nat)

  /** `field` is one of the fields of the configuration record of `f`. */
  predicate FieldBelongs(f: FormattingConfig, field: FormattingField)
  {
    match f
    case DateFormat(_) => field.FormatField?
    case NumberFormat(_) =>
      field.DecimalPlacesField? || field.ThousandSeparatorField? || field.PrefixField? || field.SuffixField?
    case CurrencyFormat(_) =>
      field.SymbolField? || field.DecimalPlacesField? || field.ThousandSeparatorField? || field.SymbolPositionField?
    case BooleanFormat(_) => field.StyleField?
    case StringFormat(_) => field.CaseField? || field.TruncateField?
    case NoFormat => false
  }

  /** `f` with one field of its configuration replaced. */
  function WithField(f: FormattingConfig, field: FormattingField): (r: FormattingConfig)
    requires !f.NoFormat?
    ensures Tag(r) == Tag(f)
    ensures !FieldBelongs(f, field) ==> r == f
    ensures r.NumberFormat? && field.DecimalPlacesField? ==> r.number == f.number.(decimalPlaces := field.places)
    ensures r.CurrencyFormat? && field.DecimalPlacesField? ==> r.currency == f.currency.(decimalPlaces := field.places)
    ensures r.NumberFormat? && field.ThousandSeparatorField? ==> r.number == f.number.(thousandSeparator := field.on)
    ensures r.CurrencyFormat? && field.ThousandSeparatorField? ==> r.currency == f.currency.(thousandSeparator := field.on)
    ensures r.NumberFormat? && field.PrefixField? ==> r.number == f.number.(prefix := field.prefix)
    ensures r.NumberFormat? && field.SuffixField? ==> r.number == f.number.(suffix := field.suffix)
    ensures r.CurrencyFormat? && field.SymbolField? ==> r.currency == f.currency.(symbol := field.symbol)
    ensures r.CurrencyFormat? && field.SymbolPositionField? ==> r.currency == f.currency.(symbolPosition := field.position)
    ensures r.DateFormat? && field.FormatField? ==> r.date == f.date.(format := field.format)
    ensures r.BooleanFormat? && field.StyleField? ==> r.boolean == f.boolean.(style := field.style)
    ensures r.StringFormat? && field.CaseField? ==> r.str == f.str.(letterCase := field.letterCase)
    ensures r.StringFormat? && field.TruncateField? ==> r.str == f.str.(truncate := Some(field.limit))
  {
    match (f, field)
    case (DateFormat(d), FormatField(v)) => DateFormat(d.(format := v))
    case (NumberFormat(n), DecimalPlacesField(v)) => NumberFormat(n.(decimalPlaces := v))
    case (NumberFormat(n), ThousandSeparatorField(v)) => NumberFormat(n.(thousandSeparator := v))
    case (NumberFormat(n), PrefixField(v)) => NumberFormat(n.(prefix := v))
    case (NumberFormat(n), SuffixField(v)) => NumberFormat(n.(suffix := v))
    case (CurrencyFormat(c), SymbolField(v)) => CurrencyFormat(c.(symbol := v))
    case (CurrencyFormat(c), DecimalPlacesField(v)) => CurrencyFormat(c.(decimalPlaces := v))
    case (CurrencyFormat(c), ThousandSeparatorField(v)) => CurrencyFormat(c.(thousandSeparator := v))
    case (CurrencyFormat(c), SymbolPositionField(v)) => CurrencyFormat(c.(symbolPosition := v))
    case (BooleanFormat(b), StyleField(v)) => BooleanFormat(b.(style := v))
    case (StringFormat(s), CaseField(v)) => StringFormat(s.(letterCase := v))
    case (StringFormat(s), TruncateField(v)) => StringFormat(s.(truncate := Some(v)))
    case _ => f
  }

  /** The selection after editing one formatting field of the pair's column:
      unchanged when the pair is not selected or its formatting is `none`;
      otherwise the pair's entries get the shown formatting with that one
      field replaced. */
  function FormattingFieldUpdated(cols: seq<ReportColumn>, tables: seq<TableDef>, tableId: string, columnId: string,
                                  field: FormattingField): (r: seq<ReportColumn>)
    ensures !IsSelected(cols, tableId, columnId) ==> r == cols
    ensures |r| == |cols|
    ensures forall j :: 0 <= j < |cols| && !Matches(cols[j], tableId, columnId) ==> r[j] == cols[j]
    ensures forall j :: 0 <= j < |cols| && Matches(cols[j], tableId, columnId) ==>
      exists k :: 0 <= k < |cols| && Matches(cols[k], tableId, columnId) &&
        (forall m :: 0 <= m < k ==> !Matches(cols[m], tableId, columnId)) &&
        var shown := ColumnFormatting(cols[k], tables);
        r[j] == if shown.NoFormat? then cols[j] else cols[j].(formatting := Some(WithField(shown, field)))
  {
    match FindIndex(cols, (c: ReportColumn) => Matches(c, tableId, columnId))
    case None => cols
    case Some(k) =>
      var shown := ColumnFormatting(cols[k], tables);
      if shown.NoFormat? then cols
      else WithFormatting(cols, tableId, columnId, WithField(shown, field))
  }

  // ---------------------------------------------------------------------
  // Filters

  /** The filter list after "add filter": one filter on the first column of
      the first exposed table or view, or no change when there is none. */
  function FilterAdded(filters: seq<FilterCondition>, sourceSelected: bool, exposed: seq<TableDef>, newId: string)
    : (r: seq<FilterCondition>)
    ensures !sourceSelected || |exposed| == 0 || |exposed[0].columns| == 0 ==> r == filters
    ensures sourceSelected && |exposed| > 0 && |exposed[0].columns| > 0 ==>
      |r| == |filters| + 1 && r[..|filters|] == filters &&
      r[|filters|] == FilterCondition(newId, exposed[0].id, exposed[0].columns[0].id, Equals, "", None)
  {
    if !sourceSelected then filters
    else if |exposed| == 0 || |exposed[0].columns| == 0 then filters
    else filters + [FilterCondition(newId, exposed[0].id, exposed[0].columns[0].id, Equals, "", None)]
  }

  /** The filter "add filter" creates uses an operator its column's type
      offers, whatever that type is. */
  lemma AddedFilterOperatorIsOffered(filters: seq<FilterCondition>, exposed: seq<TableDef>, tables: seq<TableDef>, newId: string)
    requires |exposed| > 0 && |exposed[0].columns| > 0
    ensures var f := FilterAdded(filters, true, exposed, newId)[|filters|];
      Offers(OperatorsForType(TypeName(ColumnTypeOf(tables, f.tableId, f.columnId))), f.operator)
  {
    var ops := OperatorsForType(TypeName(ColumnTypeOf(tables, exposed[0].id, exposed[0].columns[0].id)));
    assert ops[0].value == Equals;
  }

  /** A partial filter: the fields present overwrite the filter's. */
  datatype FilterUpdate = FilterUpdate(
    id: Option<string>,
    tableId: Option<string>,
    columnId: Option<string>,
    operator: Option<Operator>,
    value: Option<string>,
    value2: Option<string>)

  function Pick<T>(o: Option<T>, d: T): T
  {
    if o.Some? then o.value else d
  }

  /** `{ ...filter, ...updates }` */
  function Merge(f: FilterCondition, u: FilterUpdate): FilterCondition
  {
    FilterCondition(
      Pick(u.id, f.id), Pick(u.tableId, f.tableId), Pick(u.columnId, f.columnId),
      Pick(u.operator, f.operator), Pick(u.value, f.value),
      if u.value2.Some? then u.value2 else f.value2)
  }

  /** The update names a different, non-empty column. */
  predicate ColumnChanged(f: FilterCondition, u: FilterUpdate)
  {
    u.columnId.Some? && u.columnId.value != "" && u.columnId.value != f.columnId
  }

  /** `i` is the first of `tables` that has a column with id `columnId`. */
  predicate FirstTableHolding(tables: seq<TableDef>, columnId: string, i: int)
  {
    0 <= i < |tables| && HasColumn(tables[i].columns, columnId) &&
    forall k :: 0 <= k < i ==> !HasColumn(tables[k].columns, columnId)
  }

  function RefColumnIs(columnId: string): ColumnRef -> bool
  {
    (c: ColumnRef) => c.columnId == columnId
  }

  lemma {:induction false} AllColumnsAppend(a: seq<TableDef>, b: seq<TableDef>)
    ensures AllColumns(a + b) == AllColumns(a) + AllColumns(b)
  {
    if |b| == 0 {
      assert a + b == a;
    } else {
      var front, last := b[..|b| - 1], b[|b| - 1];
      AllColumnsAppend(a, front);
      var ab := a + b;
      assert ab[..|ab| - 1] == a + front;
      assert ab[|ab| - 1] == last;
      assert AllColumns(ab) == AllColumns(a + front) + TableRefs(last);
      assert AllColumns(b) == AllColumns(front) + TableRefs(last);
    }
  }

  lemma AllColumnsAround(tables: seq<TableDef>, i: nat)
    requires i < |tables|
    ensures AllColumns(tables) == AllColumns(tables[..i]) + (TableRefs(tables[i]) + AllColumns(tables[i + 1..]))
  {
    var pre, t, post := tables[..i], tables[i], tables[i + 1..];
    SplitAt(tables, i);
    AllColumnsAppend(pre, [t] + post);
    AllColumnsAppend([t], post);
    SingleTableRefs(t);
  }

  lemma SingleTableRefs(t: TableDef)
    ensures AllColumns([t]) == TableRefs(t)
  {
    assert [t][..0] == [];
  }

  /** Tables without the column contribute no catalogue entry for it. */
  lemma NoRefWithout(tables: seq<TableDef>, columnId: string, k: nat)
    requires forall a :: 0 <= a < |tables| ==> !HasColumn(tables[a].columns, columnId)
    requires k < |AllColumns(tables)|
    ensures AllColumns(tables)[k].columnId != columnId
  {
    AllColumnsSound(tables, k);
    var a, b :| 0 <= a < |tables| && 0 <= b < |tables[a].columns| &&
      AllColumns(tables)[k] == ColumnRef(tables[a].id, tables[a].columns[b].id, DisplayName(tables[a], tables[a].columns[b]));
    assert !HasColumn(tables[a].columns, columnId);
  }

  /** The catalogue lists the first table holding `columnId` before any other
      entry with that column id, so the first such entry belongs to it. */
  lemma FirstRefIsFirstTable(exposed: seq<TableDef>, columnId: string, i: nat, k: nat)
    requires FirstTableHolding(exposed, columnId, i)
    requires k < |AllColumns(exposed)| && AllColumns(exposed)[k].columnId == columnId
    requires forall m :: 0 <= m < k ==> AllColumns(exposed)[m].columnId != columnId
    ensures AllColumns(exposed)[k].tableId == exposed[i].id
  {
    var pre := exposed[..i];
    var t := exposed[i];
    var all := AllColumns(exposed);
    var p := |AllColumns(pre)|;
    AllColumnsAround(exposed, i);
    if k < p {
      assert all[k] == AllColumns(pre)[k];
      NoRefWithout(pre, columnId, k);
    } else {
      var j :| 0 <= j < |t.columns| && t.columns[j].id == columnId;
      assert all[p + j] == TableRefs(t)[j];
      assert k - p < |TableRefs(t)|;
      assert all[k] == TableRefs(t)[k - p];
    }
  }

  /** The table of the first exposed column with id `columnId`, that is the
      first exposed table holding such a column; `fallback` when no exposed
      table has one. */
  function ResolveTable(exposed: seq<TableDef>, columnId: string, fallback: string): (tableId: string)
    ensures forall i :: FirstTableHolding(exposed, columnId, i) ==> tableId == exposed[i].id
    ensures (forall i :: 0 <= i < |exposed| ==> !HasColumn(exposed[i].columns, columnId)) ==> tableId == fallback
  {
    var refs := AllColumns(exposed);
    var found := FindIndex(refs, RefColumnIs(columnId));
    if found.Some? then
      AllColumnsSound(exposed, found.value);
      forall i | FirstTableHolding(exposed, columnId, i)
        ensures refs[found.value].tableId == exposed[i].id
      {
        FirstRefIsFirstTable(exposed, columnId, i, found.value);
      }
      refs[found.value].tableId
    else
      forall i | FirstTableHolding(exposed, columnId, i)
        ensures false
      {
        var j :| 0 <= j < |exposed[i].columns| && exposed[i].columns[j].id == columnId;
        AllColumnsComplete(exposed, i, j);
      }
      fallback
  }

  /** One filter after a partial update. When the column changes, the table
      is re-resolved from the exposed columns, the operator is reset to the
      new column type's first operator and both values are cleared. */
  function UpdatedFilter(f: FilterCondition, u: FilterUpdate, exposed: seq<TableDef>, tables: seq<TableDef>)
    : (r: FilterCondition)
    ensures !ColumnChanged(f, u) ==> r == Merge(f, u)
    ensures r.id == Merge(f, u).id && r.columnId == Merge(f, u).columnId
    ensures ColumnChanged(f, u) ==>
      && r.value == "" && r.value2 == None
      && r.operator == OperatorsForType(TypeName(ColumnTypeOf(tables, r.tableId, r.columnId)))[0].value
      && Offers(OperatorsForType(TypeName(ColumnTypeOf(tables, r.tableId, r.columnId))), r.operator)
    ensures ColumnChanged(f, u) ==> r.tableId == ResolveTable(exposed, r.columnId, Merge(f, u).tableId)
  {
    var merged := Merge(f, u);
    if ColumnChanged(f, u) then
      var tableId := ResolveTable(exposed, merged.columnId, merged.tableId);
      var ops := OperatorsForType(TypeName(ColumnTypeOf(tables, tableId, merged.columnId)));
      merged.(tableId := tableId, operator := if |ops| > 0 then ops[0].value else merged.operator,
              value := "", value2 := None)
    else merged
  }

  /** The filter list after updating entry `index`; any other index,
      including one out of range, leaves the entries as they were. */
  function FiltersUpdated(filters: seq<FilterCondition>, index: int, u: FilterUpdate,
                          exposed: seq<TableDef>, tables: seq<TableDef>): (r: seq<FilterCondition>)
    ensures |r| == |filters|
    ensures forall j :: 0 <= j < |r| && j != index ==> r[j] == filters[j]
    ensures 0 <= index < |filters| ==> r[index] == UpdatedFilter(filters[index], u, exposed, tables)
    ensures !(0 <= index < |filters|) ==> r == filters
  {
    seq(|filters|, j requires 0 <= j < |filters| =>
      if j == index then UpdatedFilter(filters[j], u, exposed, tables) else filters[j])
  }

  // ---------------------------------------------------------------------
  // Sorts

  /** The sort list after "add sort": ascending on the first selected
      column, or no change when nothing is selected. */
  function SortAdded(sorts: seq<SortCondition>, cols: seq<ReportColumn>): (r: seq<SortCondition>)
    ensures |cols| == 0 ==> r == sorts
    ensures |cols| > 0 ==> r == sorts + [SortCondition(cols[0].tableId, cols[0].columnId, Asc)]
  {
    if |cols| == 0 then sorts else sorts + [SortCondition(cols[0].tableId, cols[0].columnId, Asc)]
  }

  datatype SortUpdate = SortUpdate(tableId: Option<string>, columnId: Option<string>, direction: Option<SortDirection>)

  /** The sort list after merging `u` into entry `index` only. */
  function SortsUpdated(sorts: seq<SortCondition>, index: int, u: SortUpdate): (r: seq<SortCondition>)
    ensures |r| == |sorts|
    ensures forall j :: 0 <= j < |r| && j != index ==> r[j] == sorts[j]
    ensures 0 <= index < |sorts| ==> r[index] == SortCondition(
      Pick(u.tableId, sorts[index].tableId), Pick(u.columnId, sorts[index].columnId),
      Pick(u.direction, sorts[index].direction))
  {
    seq(|sorts|, j requires 0 <= j < |sorts| =>
      if j == index then
        SortCondition(Pick(u.tableId, sorts[j].tableId), Pick(u.columnId, sorts[j].columnId),
                      Pick(u.direction, sorts[j].direction))
      else sorts[j])
  }

  // ---------------------------------------------------------------------
  // The editor

  class Builder {
    var config: ReportConfig
    var dataSources: seq<DataSource>

    /** A new, empty report definition owned by nobody yet. */
    constructor (id: string, createdAt: string)
      ensures config == ReportConfig(id, "", "", Private, "New Report", "", [], [], [], TableChart,
                                     ScheduleConfig(false, Weekly, "09:00"), createdAt)
      ensures dataSources == []
    {
      config := ReportConfig(id, "", "", Private, "New Report", "", [], [], [], TableChart,
                             ScheduleConfig(false, Weekly, "09:00"), createdAt);
      dataSources := [];
    }

    /** New application state arrives: keep the data sources, default the
        report's source to the first one, and make the current user owner. */
    method OnStateChange(sources: seq<DataSource>, currentUser: Option<User>)
      modifies this
      ensures dataSources == sources
      ensures config.dataSourceId ==
        if old(config.dataSourceId) == "" && |sources| > 0 then sources[0].id else old(config.dataSourceId)
      ensures config.ownerId == if currentUser.Some? then currentUser.value.id else old(config.ownerId)
      ensures config == old(config).(dataSourceId := config.dataSourceId, ownerId := config.ownerId)
    {
      dataSources := sources;
      if config.dataSourceId == "" && |sources| > 0 {
        config := config.(dataSourceId := sources[0].id);
      }
      if currentUser.Some? {
        config := config.(ownerId := currentUser.value.id);
      }
    }

    /** The first loaded source whose id is the report's. */
    function SelectedDataSource(): (r: Option<DataSource>)
      reads this
      ensures r.None? <==> forall i :: 0 <= i < |dataSources| ==> dataSources[i].id != config.dataSourceId
      ensures r.Some? ==>
        exists i :: 0 <= i < |dataSources| && dataSources[i] == r.value && r.value.id == config.dataSourceId &&
          forall k :: 0 <= k < i ==> dataSources[k].id != config.dataSourceId
    {
      var dsId := config.dataSourceId;
      Find(dataSources, (ds: DataSource) => ds.id == dsId)
    }

    /** The selected source's tables followed by its views. */
    function AllTablesAndViews(): (r: seq<TableDef>)
      reads this
      ensures SelectedDataSource().None? ==> r == []
      ensures SelectedDataSource().Some? ==> r == SelectedDataSource().value.tables + SelectedDataSource().value.views
    {
      match SelectedDataSource()
      case None => []
      case Some(ds) => ds.tables + ds.views
    }

    /** The exposed ones among them, in the same order. */
    function ExposedTablesAndViews(): (r: seq<TableDef>)
      reads this
      ensures forall t :: t in r <==> t in AllTablesAndViews() && t.exposed
      ensures KeptInOrder(r, AllTablesAndViews(), IsExposed())
    {
      var all := AllTablesAndViews();
      forall t
        ensures t in Filter(all, IsExposed()) <==> t in all && t.exposed
      {
        FilterMember(all, IsExposed(), t);
      }
      FilterInOrder(all, IsExposed());
      Filter(all, IsExposed())
    }

    /** Switching source drops every column, filter and sort. */
    method OnDataSourceChange(dsId: string)
      modifies this`config
      ensures config == old(config).(dataSourceId := dsId, selectedColumns := [], filters := [], sorts := [])
    {
      config := config.(dataSourceId := dsId, selectedColumns := [], filters := [], sorts := []);
    }

    method ToggleColumn(tableId: string, columnId: string)
      modifies this`config
      ensures config == old(config).(selectedColumns := Toggled(old(config.selectedColumns), tableId, columnId))
    {
      config := config.(selectedColumns := Toggled(config.selectedColumns, tableId, columnId));
    }

    function IsColumnSelected(tableId: string, columnId: string): (r: bool)
      reads this
      ensures r <==> exists k ::
        && 0 <= k < |config.selectedColumns|
        && config.selectedColumns[k].tableId == tableId && config.selectedColumns[k].columnId == columnId
    {
      FindIndex(config.selectedColumns, (c: ReportColumn) => Matches(c, tableId, columnId)).Some?
    }

    function GetColumnType(tableId: string, columnId: string): (t: ColumnType)
      reads this
      ensures SelectedDataSource().None? ==> t == StringType
      ensures forall i, j ::
        FirstTable(AllTablesAndViews(), tableId, i) && FirstColumn(AllTablesAndViews()[i].columns, columnId, j) ==>
          t == AllTablesAndViews()[i].columns[j].colType
    {
      ColumnTypeOf(AllTablesAndViews(), tableId, columnId)
    }

    function GetColumnName(tableId: string, columnId: string): (text: string)
      reads this
      ensures |dataSources| == 0 ==> text == "Loading..."
      ensures |dataSources| > 0 && SelectedDataSource().None? ==> text == "[Table Not Found].[Column Not Found]"
      ensures |dataSources| > 0 && (forall i :: 0 <= i < |AllTablesAndViews()| ==> AllTablesAndViews()[i].id != tableId) ==>
        text == "[Table Not Found].[Column Not Found]"
      ensures forall i :: |dataSources| > 0 && FirstTable(AllTablesAndViews(), tableId, i) ==>
        text == LabelIn(AllTablesAndViews()[i], columnId)
    {
      ColumnName(|dataSources| > 0, AllTablesAndViews(), tableId, columnId)
    }

    /** Formatting is switched on with the default for the column's type. */
    method EnableFormatting(tableId: string, columnId: string)
      modifies this`config
      ensures config == old(config).(selectedColumns := WithFormatting(old(config.selectedColumns), tableId, columnId,
                                       DefaultFormatting(old(GetColumnType(tableId, columnId)))))
    {
      var f := DefaultFormatting(GetColumnType(tableId, columnId));
      UpdateColumnFormatting(tableId, columnId, f);
    }

    method DisableFormatting(tableId: string, columnId: string)
      modifies this`config
      ensures config == old(config).(selectedColumns := WithoutFormatting(old(config.selectedColumns), tableId, columnId))
    {
      config := config.(selectedColumns := WithoutFormatting(config.selectedColumns, tableId, columnId));
    }

    method UpdateColumnFormatting(tableId: string, columnId: string, formatting: FormattingConfig)
      modifies this`config
      ensures config == old(config).(selectedColumns := WithFormatting(old(config.selectedColumns), tableId, columnId, formatting))
    {
      config := config.(selectedColumns := WithFormatting(config.selectedColumns, tableId, columnId, formatting));
    }

    method UpdateColumnFormattingField(tableId: string, columnId: string, field: FormattingField)
      modifies this`config
      ensures config == old(config).(selectedColumns :=
        FormattingFieldUpdated(old(config.selectedColumns), old(AllTablesAndViews()), tableId, columnId, field))
    {
      config := config.(selectedColumns :=
        FormattingFieldUpdated(config.selectedColumns, AllTablesAndViews(), tableId, columnId, field));
    }

    /** The picker entries of every exposed table and view. */
    method GetAllColumns() returns (columns: seq<ColumnRef>)
      ensures columns == AllColumns(ExposedTablesAndViews())
    {
      columns := CollectColumns(ExposedTablesAndViews());
    }

    method AddFilter(newId: string)
      modifies this`config
      ensures config == old(config).(filters :=
        FilterAdded(old(config.filters), old(SelectedDataSource()).Some?, old(ExposedTablesAndViews()), newId))
    {
      config := config.(filters := FilterAdded(config.filters, SelectedDataSource().Some?, ExposedTablesAndViews(), newId));
    }

    method UpdateFilter(index: int, updates: FilterUpdate)
      modifies this`config
      ensures config == old(config).(filters :=
        FiltersUpdated(old(config.filters), index, updates, old(ExposedTablesAndViews()), old(AllTablesAndViews())))
    {
      config := config.(filters :=
        FiltersUpdated(config.filters, index, updates, ExposedTablesAndViews(), AllTablesAndViews()));
    }

    method RemoveFilter(index: int)
      modifies this`config
      ensures config == old(config).(filters := RemoveAt(old(config.filters), index))
    {
      config := config.(filters := RemoveAt(config.filters, index));
    }

    method AddSort()
      modifies this`config
      ensures config == old(config).(sorts := SortAdded(old(config.sorts), old(config.selectedColumns)))
    {
      config := config.(sorts := SortAdded(config.sorts, config.selectedColumns));
    }

    method UpdateSort(index: int, updates: SortUpdate)
      modifies this`config
      ensures config == old(config).(sorts := SortsUpdated(old(config.sorts), index, updates))
    {
      config := config.(sorts := SortsUpdated(config.sorts, index, updates));
    }

    method RemoveSort(index: int)
      modifies this`config
      ensures config == old(config).(sorts := RemoveAt(old(config.sorts), index))
    {
      config := config.(sorts := RemoveAt(config.sorts, index));
    }
  }
}
