/** The data-source editor: a form holding a data source's header and its
    discovered schema, where an administrator exposes tables and views for
    reporting and annotates them, and which builds the record to save.

    Tables and views share the `TableDef` record, so each per-element
    update is one function applied to either list. */
module DatasourceEditor {
  import opened Models
  import opened Seqs

  /** The editable fields of a table or view. */
  datatype TableField = TableAlias | TableDescription

  /** The editable fields of a column. */
  datatype ColumnField = ColumnAlias | ColumnDescription | ColumnSampleValue

  /** The form: the data source being edited, without id or connection. */
  datatype FormData = FormData(
    name: string,
    description: string,
    kind: SourceKind,
    tables: seq<TableDef>,
    views: seq<TableDef>,
    createdAt: string)

  // ---------------------------------------------------------------------
  // Per-element schema updates

  /** `exposed` flipped on every entry with id `id`. */
  function ToggledExposure(ts: seq<TableDef>, id: string): (r: seq<TableDef>)
    ensures |r| == |ts|
    ensures forall i :: 0 <= i < |r| ==>
      r[i] == (if ts[i].id == id then ts[i].(exposed := !ts[i].exposed) else ts[i])
  {
    seq(|ts|, i requires 0 <= i < |ts| => if ts[i].id == id then ts[i].(exposed := !ts[i].exposed) else ts[i])
  }

  /** Toggling an entry's exposure twice restores the list. */
  lemma ToggleExposureTwice(ts: seq<TableDef>, id: string)
    ensures ToggledExposure(ToggledExposure(ts, id), id) == ts
  {
    var twice := ToggledExposure(ToggledExposure(ts, id), id);
    assert forall i :: 0 <= i < |ts| ==> twice[i] == ts[i];
  }

  /** Toggling changes which entries are exposed, and nothing else: the
      exposed entries afterwards are those whose id is `id` and that were
      hidden, or whose id is another and that were exposed. */
  lemma ToggleExposureOnlyFlips(ts: seq<TableDef>, id: string)
    ensures forall i :: 0 <= i < |ts| ==>
      ToggledExposure(ts, id)[i].exposed == (if ts[i].id == id then !ts[i].exposed else ts[i].exposed)
    ensures forall i :: 0 <= i < |ts| ==>
      ToggledExposure(ts, id)[i].(exposed := ts[i].exposed) == ts[i]
  {
  }

  function WithTableField(t: TableDef, field: TableField, value: string): (r: TableDef)
    ensures r.id == t.id && r.name == t.name && r.columns == t.columns && r.exposed == t.exposed
    ensures field == TableAlias ==> r.alias == value && r.description == t.description
    ensures field == TableDescription ==> r.description == value && r.alias == t.alias
  {
    match field
    case TableAlias => t.(alias := value)
    case TableDescription => t.(description := value)
  }

  /** The named field set on every entry with id `id`. */
  function TableMetadataUpdated(ts: seq<TableDef>, id: string, field: TableField, value: string): (r: seq<TableDef>)
    ensures |r| == |ts|
    ensures forall i :: 0 <= i < |r| ==> r[i] == (if ts[i].id == id then WithTableField(ts[i], field, value) else ts[i])
  {
    seq(|ts|, i requires 0 <= i < |ts| => if ts[i].id == id then WithTableField(ts[i], field, value) else ts[i])
  }

  function WithColumnField(c: ColumnDef, field: ColumnField, value: string): (r: ColumnDef)
    ensures r.id == c.id && r.name == c.name && r.colType == c.colType && r.isPii == c.isPii
    ensures field == ColumnAlias ==> r.alias == value && r.description == c.description && r.sampleValue == c.sampleValue
    ensures field == ColumnDescription ==> r.description == value && r.alias == c.alias && r.sampleValue == c.sampleValue
    ensures field == ColumnSampleValue ==> r.sampleValue == value && r.alias == c.alias && r.description == c.description
  {
    match field
    case ColumnAlias => c.(alias := value)
    case ColumnDescription => c.(description := value)
    case ColumnSampleValue => c.(sampleValue := value)
  }

  /** The named field set on every column `colId` of every entry with id
      `tableId`. */
  function ColumnMetadataUpdated(ts: seq<TableDef>, tableId: string, colId: string, field: ColumnField, value: string): (r: seq<TableDef>)
    ensures |r| == |ts|
    ensures forall i :: 0 <= i < |r| ==> ts[i].id != tableId ==> r[i] == ts[i]
    ensures forall i :: 0 <= i < |r| ==> ts[i].id == tableId ==>
      && r[i] == ts[i].(columns := r[i].columns)
      && |r[i].columns| == |ts[i].columns|
      && forall j :: 0 <= j < |ts[i].columns| ==>
           r[i].columns[j] == (if ts[i].columns[j].id == colId then WithColumnField(ts[i].columns[j], field, value)
                               else ts[i].columns[j])
  {
    seq(|ts|, i requires 0 <= i < |ts| =>
      if ts[i].id != tableId then ts[i]
      else
        var cs := ts[i].columns;
        ts[i].(columns := seq(|cs|, j requires 0 <= j < |cs| =>
          if cs[j].id == colId then WithColumnField(cs[j], field, value) else cs[j])))
  }

  /** A metadata edit never changes which entries exist or are exposed. */
  lemma MetadataKeepsSchemaShape(ts: seq<TableDef>, tableId: string, colId: string, tf: TableField, cf: ColumnField, value: string)
    ensures forall i :: 0 <= i < |ts| ==>
      && TableMetadataUpdated(ts, tableId, tf, value)[i].id == ts[i].id
      && TableMetadataUpdated(ts, tableId, tf, value)[i].exposed == ts[i].exposed
      && TableMetadataUpdated(ts, tableId, tf, value)[i].columns == ts[i].columns
    ensures forall i :: 0 <= i < |ts| ==>
      && ColumnMetadataUpdated(ts, tableId, colId, cf, value)[i].id == ts[i].id
      && ColumnMetadataUpdated(ts, tableId, colId, cf, value)[i].exposed == ts[i].exposed
  {
  }

  // ---------------------------------------------------------------------
  // Expanded table

  /** The expanded table after clicking `id`: collapsed when it was the
      expanded one, otherwise `id`. */
  function Expanded(current: Option<string>, id: string): (r: Option<string>)
    ensures r == Some(id) <==> current != Some(id)
    ensures r.Some? ==> r.value == id
  {
    if current == Some(id) then None else Some(id)
  }

  /** Clicking the same table twice returns to where it started, unless
      another table was expanded at first. */
  lemma ExpandedTwice(current: Option<string>, id: string)
    ensures current.None? || current == Some(id) ==> Expanded(Expanded(current, id), id) == current
    ensures current.Some? && current != Some(id) ==> Expanded(Expanded(current, id), id) == None
  {
  }

  // ---------------------------------------------------------------------
  // The saved record

  /** An edit is in progress when the route named a (non-empty) id. */
  predicate Editing(editingId: Option<string>)
  {
    editingId.Some? && editingId.value != ""
  }

  /** The record saved for the form, or None when the name is empty. The
      fresh id and the current time are parameters. */
  function BuildDataSource(form: FormData, connection: ConnectionDetails, editingId: Option<string>,
                           freshId: string, now: string): (r: Option<DataSource>)
    ensures r.None? <==> form.name == ""
    ensures r.Some? ==> r.value.id == (if Editing(editingId) then editingId.value else freshId)
    ensures r.Some? ==> r.value.name == form.name && r.value.kind == form.kind
    ensures r.Some? ==> r.value.description == form.description
    ensures r.Some? ==> r.value.tables == form.tables && r.value.views == form.views
    ensures r.Some? ==> (r.value.connectionDetails.Some? <==> form.kind != Custom)
    ensures r.Some? && form.kind != Custom ==> r.value.connectionDetails == Some(connection)
    ensures r.Some? && !Editing(editingId) ==> r.value.createdAt == now
    ensures r.Some? && Editing(editingId) && form.createdAt != "" ==> r.value.createdAt == form.createdAt
    ensures r.Some? && Editing(editingId) && form.createdAt == "" ==> r.value.createdAt == now
  {
    if form.name == "" then None
    else
      Some(DataSource(
        id := if Editing(editingId) then editingId.value else freshId,
        name := form.name,
        description := form.description,
        kind := form.kind,
        connectionDetails := if form.kind != Custom then Some(connection) else None,
        tables := form.tables,
        views := form.views,
        createdAt := if Editing(editingId) then OrElse(form.createdAt, now) else now))
  }

  // ---------------------------------------------------------------------
  // The editor

  class Editor {
    var form: FormData
    var connection: ConnectionDetails
    var editingId: Option<string>
    var expandedTableId: Option<string>

    /** A new form: an empty 'sql' data source with the default connection. */
    constructor (editingId: Option<string>)
      ensures form == FormData("", "", Sql, [], [], "")
      ensures connection == ConnectionDetails("localhost", "1433", "Northwind", "sa", "")
      ensures this.editingId == editingId && expandedTableId == None
    {
      form := FormData("", "", Sql, [], [], "");
      connection := ConnectionDetails("localhost", "1433", "Northwind", "sa", "");
      this.editingId := editingId;
      expandedTableId := None;
    }

    method ToggleTableExposure(tableId: string)
      modifies this
      ensures form == old(form).(tables := ToggledExposure(old(form.tables), tableId))
      ensures connection == old(connection) && editingId == old(editingId) && expandedTableId == old(expandedTableId)
    {
      form := form.(tables := ToggledExposure(form.tables, tableId));
    }

    method ToggleViewExposure(viewId: string)
      modifies this
      ensures form == old(form).(views := ToggledExposure(old(form.views), viewId))
      ensures connection == old(connection) && editingId == old(editingId) && expandedTableId == old(expandedTableId)
    {
      form := form.(views := ToggledExposure(form.views, viewId));
    }

    method UpdateTableMetadata(id: string, field: TableField, value: string)
      modifies this
      ensures form == old(form).(tables := TableMetadataUpdated(old(form.tables), id, field, value))
      ensures connection == old(connection) && editingId == old(editingId) && expandedTableId == old(expandedTableId)
    {
      form := form.(tables := TableMetadataUpdated(form.tables, id, field, value));
    }

    method UpdateColumnMetadata(tableId: string, colId: string, field: ColumnField, value: string)
      modifies this
      ensures form == old(form).(tables := ColumnMetadataUpdated(old(form.tables), tableId, colId, field, value))
      ensures connection == old(connection) && editingId == old(editingId) && expandedTableId == old(expandedTableId)
    {
      form := form.(tables := ColumnMetadataUpdated(form.tables, tableId, colId, field, value));
    }

    method UpdateViewMetadata(id: string, field: TableField, value: string)
      modifies this
      ensures form == old(form).(views := TableMetadataUpdated(old(form.views), id, field, value))
      ensures connection == old(connection) && editingId == old(editingId) && expandedTableId == old(expandedTableId)
    {
      form := form.(views := TableMetadataUpdated(form.views, id, field, value));
    }

    method UpdateViewColumnMetadata(viewId: string, colId: string, field: ColumnField, value: string)
      modifies this
      ensures form == old(form).(views := ColumnMetadataUpdated(old(form.views), viewId, colId, field, value))
      ensures connection == old(connection) && editingId == old(editingId) && expandedTableId == old(expandedTableId)
    {
      form := form.(views := ColumnMetadataUpdated(form.views, viewId, colId, field, value));
    }

    method ToggleTable(id: string)
      modifies this
      ensures expandedTableId == Expanded(old(expandedTableId), id)
      ensures form == old(form) && connection == old(connection) && editingId == old(editingId)
    {
      expandedTableId := if expandedTableId == Some(id) then None else Some(id);
    }

    /** The record `handleSave` would send, or None when it refuses. */
    method SaveRecord(freshId: string, now: string) returns (record: Option<DataSource>)
      ensures record == BuildDataSource(form, connection, editingId, freshId, now)
    {
      record := BuildDataSource(form, connection, editingId, freshId, now);
    }
  }
}
