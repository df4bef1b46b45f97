# Report definitions of the report generator

This project models the core of a browser application for self-service
reporting. In the application, an administrator registers data sources and
marks which of their tables and views may be reported on. A user builds a
report definition from those data sources, and the viewer runs the
definition and formats the rows it returns. The model covers:

- **Report builder** (`ReportBuilder`). This is the editable report
  configuration: selecting columns, per-column formatting, filters, sorts,
  the operators offered for each column type, and the column catalogue.
- **Report viewer** (`ReportViewer`, `ValueFormat`).
  - Resolving a saved report against its data source into a data request
    and the displayed columns.
  - The outcome of a run: error, rows, origin, counts.
  - Cell formatting.
  - The rows and file name of the spreadsheet export.
- **Application state** (`AppState`). This is the store that holds the
  current user, the data sources and the deduplicated report list.
- **Data-source editor** (`DatasourceEditor`). This covers exposing and
  annotating tables, views and columns, and building the record to save.
- **Report list** (`ReportList`). This covers which reports a user sees and
  may change, how owners and data sources are named, and the guarded
  delete.
- **Dashboard** (`Dashboard`). This covers a user's own reports, the
  scheduled reports, and up to ten viewed accessible reports, ordered by
  the last position of their id in the list of viewed ids.
- **Navigation** (`Navigation`). This covers a user's initials and switching
  between the development users.

`Models` holds the shared records: data sources and their schema, report
configurations, formatting records and users. `Seqs` holds the sequence
helpers behind the array `find`, `findIndex` and `filter` calls.

Components whose fields the application updates in place are classes:
`ReportBuilder.Builder`, `ReportViewer.Viewer`, `AppState.Store` and
`DatasourceEditor.Editor`. Each of their methods is proved against a
function of the old state. The properties are proved about those functions.

Things the model does not see are passed in as parameters:

- the server's responses, as a `respond` function and `serverOk` flags;
- the clock, as `now` and `elapsedMs`;
- fresh identifiers, as `freshId` and `newId`;
- the user's answer to a confirmation dialog, as `confirmed`;
- JavaScript's number and date rendering, as the `ValueFormat.Host` record.

Behaviour of the code that the descriptions of the application put
differently:

- The viewer projects a selected column onto the first table column whose
  id **or** name equals the selected id (`ReportViewer.ProjectColumn`).
- A boolean format style of `check/x` or `enabled/disabled` appears among
  the declared styles. The formatter has no case for either, so both fall
  back to `true/false` (`ValueFormat.DeclaredStylesFallBack`).
- Deleting from the report list goes through `setReports`. The result is
  therefore the deduplicated list without the report.
  `ReportList.AfterDeleteEffect` shows that, on a list with distinct ids,
  this is exactly the list without the report.
- `addReport` of a report whose id is already present calls `updateReport`.
  In every case the result equals that of `updateReport`
  (`AppState.AddedIsUpdated`).

## Model

| member | source | states |
|---|---|---|
| ReportBuilder.OperatorsForType | src/app/components/reports/report-builder/report-builder.component.ts:359-417 | every column type is offered at least one operator, the first is `equals`, and no operator appears twice |
| ReportBuilder.BetweenOnlyForRanges | src/app/components/reports/report-builder/report-builder.component.ts:359-417 | `between` is offered exactly for number, currency and date columns |
| ReportBuilder.PeriodsOnlyForDates | src/app/components/reports/report-builder/report-builder.component.ts:386-401 | the relative-period operators are offered exactly for date columns |
| ReportBuilder.ArityAgreesWithTable | src/app/components/reports/report-builder/report-builder.component.ts:359-427 | a two-value operator is only offered for range types and needs a value; an offered operator needs no value exactly when it is a null, emptiness or period test; periods come only with dates and emptiness tests only with strings |
| ReportBuilder.NeedsValueInput | src/app/components/reports/report-builder/report-builder.component.ts:419-423 | no value is needed exactly for the null and empty tests and the four calendar periods |
| ReportBuilder.NeedsTwoValues | src/app/components/reports/report-builder/report-builder.component.ts:425-427 | only `between` takes a second value, and it also takes the first |
| ReportBuilder.DefaultFormatting | src/app/components/reports/report-builder/report-builder.component.ts:202-219 | the default formatting of a column type is the formatting record of that same type |
| ReportBuilder.ColumnTypeOf | src/app/components/reports/report-builder/report-builder.component.ts:353-357 | an unknown table gives `string`; in the first table with the id, an unknown column gives `string` and the first column with the id gives its declared type |
| ReportBuilder.ColumnName | src/app/components/reports/report-builder/report-builder.component.ts:324-351 | `Loading...` before the data sources load; the not-found label for an unknown table; for the first table with the id, the label `LabelIn` gives for that table |
| ReportBuilder.LabelIn | src/app/components/reports/report-builder/report-builder.component.ts:340-350 | within a found table: its alias or name with `[Column Not Found]` without the column, else the table and first matching column labels with their `Unknown` fallbacks |
| ReportBuilder.TableRefs | src/app/components/reports/report-builder/report-builder.component.ts:230-243 | one catalogue entry per column of the table, in order, carrying the table id, the column id and the display name |
| ReportBuilder.AllColumnsSound | src/app/components/reports/report-builder/report-builder.component.ts:230-243 | every catalogue entry is a column of one of the exposed tables |
| ReportBuilder.AllColumnsComplete | src/app/components/reports/report-builder/report-builder.component.ts:230-243 | every column of every exposed table is in the catalogue |
| ReportBuilder.Builder.GetAllColumns | src/app/components/reports/report-builder/report-builder.component.ts:230-243 | the nested loop builds exactly the catalogue of the exposed tables and views |
| ReportBuilder.CollectColumns | src/app/components/reports/report-builder/report-builder.component.ts:232-241 | the nested `forEach` builds, entry by entry, exactly the catalogue of the given tables |
| ReportBuilder.FirstRefIsFirstTable | src/app/components/reports/report-builder/report-builder.component.ts:230-243 | the catalogue lists tables in order, so its first entry for a column id belongs to the first table holding that column |
| ReportBuilder.Builder.SelectedDataSource | src/app/components/reports/report-builder/report-builder.component.ts:107-109 | the first loaded source with the report's source id; none exactly when no loaded source has it |
| ReportBuilder.Builder.AllTablesAndViews | src/app/components/reports/report-builder/report-builder.component.ts:111-117 | the selected source's tables followed by its views; nothing without a selected source |
| ReportBuilder.Builder.ExposedTablesAndViews | src/app/components/reports/report-builder/report-builder.component.ts:119-121 | exactly the exposed tables and views, in their order |
| ReportBuilder.Builder.GetColumnType | src/app/components/reports/report-builder/report-builder.component.ts:353-357 | `string` without a selected source; the declared type of the first matching column of the first matching table or view |
| ReportBuilder.Builder.GetColumnName | src/app/components/reports/report-builder/report-builder.component.ts:324-351 | `Loading...` without loaded sources; the not-found label when the report's source is not loaded or has no table with the id; otherwise the label of the column within the first table of the selected source with the id (`LabelIn`) |
| ReportBuilder.Toggled | src/app/components/reports/report-builder/report-builder.component.ts:135-149 | an unselected column is appended with no formatting; a selected one is removed |
| ReportBuilder.ToggleTwiceRestores | src/app/components/reports/report-builder/report-builder.component.ts:135-149 | toggling an unselected column twice restores the selection |
| ReportBuilder.RemoveKeepsUnique | src/app/components/reports/report-builder/report-builder.component.ts:143-145 | removing a selected column keeps the selection free of duplicates and unselects that column |
| ReportBuilder.ToggleFlipsSelection | src/app/components/reports/report-builder/report-builder.component.ts:135-155 | toggling keeps the selection duplicate-free and flips whether the column is selected |
| ReportBuilder.Builder.IsColumnSelected | src/app/components/reports/report-builder/report-builder.component.ts:151-155 | true exactly when some selected column has that table and column id |
| ReportBuilder.ColumnFormatting | src/app/components/reports/report-builder/report-builder.component.ts:221-223 | a column's own formatting if it has one, otherwise the default for its type |
| ReportBuilder.WithFormatting | src/app/components/reports/report-builder/report-builder.component.ts:162-166 | the matching selected columns get the formatting; every other column is unchanged |
| ReportBuilder.WithoutFormatting | src/app/components/reports/report-builder/report-builder.component.ts:168-176 | the matching selected columns lose their formatting; every other column is unchanged |
| ReportBuilder.WithField | src/app/components/reports/report-builder/report-builder.component.ts:187-200 | one field of the formatting record changes and the kind of formatting is kept; a field the kind lacks changes nothing |
| ReportBuilder.FormattingFieldUpdated | src/app/components/reports/report-builder/report-builder.component.ts:187-200 | only the matching columns change, each to its current or default formatting with the field set; an unselected column changes nothing |
| ReportBuilder.FilterAdded | src/app/components/reports/report-builder/report-builder.component.ts:245-260 | with a data source and a first exposed table that has columns, appends an `equals` filter on its first column with an empty value; otherwise nothing changes |
| ReportBuilder.AddedFilterOperatorIsOffered | src/app/components/reports/report-builder/report-builder.component.ts:245-260 | the new filter's operator is among those offered for the column's type |
| ReportBuilder.ResolveTable | src/app/components/reports/report-builder/report-builder.component.ts:271-274 | the table of the first catalogue entry with the column id is the first exposed table holding that column; without one the current table is kept |
| ReportBuilder.UpdatedFilter | src/app/components/reports/report-builder/report-builder.component.ts:262-290 | an update that leaves the column is merged as given; changing the column sets the table to `ResolveTable` of the new column, resets the operator to the first offered for its type and clears both values |
| ReportBuilder.FiltersUpdated | src/app/components/reports/report-builder/report-builder.component.ts:262-290 | only the filter at the index changes; an index out of range changes nothing |
| ReportBuilder.SortAdded | src/app/components/reports/report-builder/report-builder.component.ts:297-311 | with no selected column nothing changes; otherwise an ascending sort on the first selected column is appended |
| ReportBuilder.SortsUpdated | src/app/components/reports/report-builder/report-builder.component.ts:313-317 | only the sort at the index takes the given fields |
| ReportBuilder.Builder.constructor | src/app/components/reports/report-builder/report-builder.component.ts:35-50 | a new private table report named `New Report` with a weekly schedule at 09:00, switched off |
| ReportBuilder.Builder.OnStateChange | src/app/components/reports/report-builder/report-builder.component.ts:70-76 | the data sources are kept, an unset source defaults to the first one, the current user becomes owner, and nothing else changes |
| ReportBuilder.Builder.OnDataSourceChange | src/app/components/reports/report-builder/report-builder.component.ts:124-132 | the source changes and the columns, filters and sorts are cleared |
| ReportBuilder.Builder.ToggleColumn | src/app/components/reports/report-builder/report-builder.component.ts:135-149 | the selection becomes `Toggled` of the old one |
| ReportBuilder.Builder.EnableFormatting | src/app/components/reports/report-builder/report-builder.component.ts:162-166 | the column gets the default formatting of its type |
| ReportBuilder.Builder.DisableFormatting | src/app/components/reports/report-builder/report-builder.component.ts:168-176 | the column's formatting is removed |
| ReportBuilder.Builder.UpdateColumnFormatting | src/app/components/reports/report-builder/report-builder.component.ts:178-185 | the column's formatting is replaced |
| ReportBuilder.Builder.UpdateColumnFormattingField | src/app/components/reports/report-builder/report-builder.component.ts:187-200 | the selection becomes `FormattingFieldUpdated` of the old one |
| ReportBuilder.Builder.AddFilter | src/app/components/reports/report-builder/report-builder.component.ts:245-260 | the filters become `FilterAdded` of the old ones |
| ReportBuilder.Builder.UpdateFilter | src/app/components/reports/report-builder/report-builder.component.ts:262-290 | the filters become `FiltersUpdated` of the old ones |
| ReportBuilder.Builder.RemoveFilter | src/app/components/reports/report-builder/report-builder.component.ts:292-294 | the filter at the index is removed and the others keep their order |
| ReportBuilder.Builder.AddSort | src/app/components/reports/report-builder/report-builder.component.ts:297-311 | the sorts become `SortAdded` of the old ones |
| ReportBuilder.Builder.UpdateSort | src/app/components/reports/report-builder/report-builder.component.ts:313-317 | the sorts become `SortsUpdated` of the old ones |
| ReportBuilder.Builder.RemoveSort | src/app/components/reports/report-builder/report-builder.component.ts:319-321 | the sort at the index is removed and the others keep their order |
| ReportViewer.DistinctProperties | src/app/components/reports/report-viewer/report-viewer.component.ts:129 | the distinct table ids are exactly the ids used, without repetition, starting with the first |
| ReportViewer.SingleDistinctIffAllEqual | src/app/components/reports/report-viewer/report-viewer.component.ts:129-134 | there is one distinct table exactly when there are selected columns and all use the same table |
| ReportViewer.TableIds | src/app/components/reports/report-viewer/report-viewer.component.ts:129 | the table id of each selected column, in order |
| ReportViewer.ProjectColumn | src/app/components/reports/report-viewer/report-viewer.component.ts:151-160 | the first column matching the selected id by id or name gives the key (name, else the id), the caption (alias, else name, else the id) and the type; with no match the selected id is key and caption and there is no type; the selected formatting is kept |
| ReportViewer.Projection | src/app/components/reports/report-viewer/report-viewer.component.ts:151-160 | one displayed column per selected column, in order |
| ReportViewer.Keys | src/app/components/reports/report-viewer/report-viewer.component.ts:183 | the keys of the displayed columns, in order |
| ReportViewer.LookupTable | src/app/components/reports/report-viewer/report-viewer.component.ts:136-148 | the first table with the id when there is one; otherwise the first view with it; nothing exactly when neither list has the id |
| ReportViewer.Resolve | src/app/components/reports/report-viewer/report-viewer.component.ts:119-199 | no columns, several tables and an unknown table are rejected with their messages; otherwise the request goes to the AI generator for a custom source and to the live query otherwise |
| ReportViewer.ResolvesWhenSingleKnownTable | src/app/components/reports/report-viewer/report-viewer.component.ts:119-160 | a report whose columns all come from one known table resolves against that table |
| ReportViewer.NotFoundExactly | src/app/components/reports/report-viewer/report-viewer.component.ts:136-148 | the not-found rejection happens exactly when the one table is neither a table nor a view of the source |
| ReportViewer.RunOutcome | src/app/components/reports/report-viewer/report-viewer.component.ts:103-215 | loading ends; a missing report or source sets its error and issues nothing; a request is issued exactly when resolution succeeds; an error leaves no rows; success records the rows, their count, the time and the origin |
| ReportViewer.FailedRunShowsNoRows | src/app/components/reports/report-viewer/report-viewer.component.ts:173-213 | a failed fetch shows the source kind's failure message and no rows |
| ReportViewer.RunShowsResponse | src/app/components/reports/report-viewer/report-viewer.component.ts:120-213 | a rejection shows its own message; delivered rows are shown as delivered and counted; an empty answer shows no rows and counts zero; a failure shows the message for the source's kind |
| ReportViewer.Viewer.constructor | src/app/components/reports/report-viewer/report-viewer.component.ts:22-31 | a viewer starts loading, with no error, rows, columns, origin or counts |
| ReportViewer.Viewer.FetchReportData | src/app/components/reports/report-viewer/report-viewer.component.ts:103-215 | the new view state and the issued request are `RunOutcome` of the old state |
| ReportViewer.Viewer.ShowResponse | src/app/components/reports/report-viewer/report-viewer.component.ts:164-213 | the answer is recorded on the cleared view exactly as `Shown` describes: the failure message, or the origin, time, rows and their count |
| ReportViewer.SelectedColumnNames | src/app/components/reports/report-viewer/report-viewer.component.ts:229-237 | no names without a report and a source; otherwise one name per selected column, each the `CaptionOf` that column in the source's tables |
| ReportViewer.CaptionOf | src/app/components/reports/report-viewer/report-viewer.component.ts:231-236 | the column id when no table has the column's table id; for the first such table, the caption `CaptionInTable` gives; always the column id or a non-empty alias or name of a column with that id |
| ReportViewer.CaptionInTable | src/app/components/reports/report-viewer/report-viewer.component.ts:233-235 | within a found table, the alias, then name, then id of the first column with the id; the column id when there is none |
| ReportViewer.ExportRowKeys | src/app/components/reports/report-viewer/report-viewer.component.ts:244-255 | an exported row has a key exactly for each column caption |
| ReportViewer.ExportRowValue | src/app/components/reports/report-viewer/report-viewer.component.ts:244-255 | the value under a caption is the formatted cell of the last column with that caption |
| ReportViewer.ExportRows | src/app/components/reports/report-viewer/report-viewer.component.ts:244-255 | one exported row per data row, in order |
| ReportViewer.DropSeparators | src/app/components/reports/report-viewer/report-viewer.component.ts:261 | removes exactly the leading characters that are not letters or digits |
| ReportViewer.Sanitize | src/app/components/reports/report-viewer/report-viewer.component.ts:261 | the result is empty only for an empty name, uses only letters, digits and `_`, and keeps or replaces the first character |
| ReportViewer.SanitizeRun | src/app/components/reports/report-viewer/report-viewer.component.ts:261 | a run of separators between a letter or digit and a letter or digit becomes exactly one `_`, with both sides sanitised independently |
| ReportViewer.DropSeparatorsAppend | src/app/components/reports/report-viewer/report-viewer.component.ts:261 | a run of separators stops at the first letter or digit and never reaches past it |
| ReportViewer.SanitizeProperties | src/app/components/reports/report-viewer/report-viewer.component.ts:261 | sanitizing keeps the letters and digits in order and never produces two `_` in a row |
| ReportViewer.DropSeparatorsKeepsAlnums | src/app/components/reports/report-viewer/report-viewer.component.ts:261 | dropping leading separators keeps every letter and digit |
| ReportViewer.DropSeparatorsNoop | src/app/components/reports/report-viewer/report-viewer.component.ts:261 | a string starting with a letter or digit has no leading separators to drop |
| ReportViewer.SanitizeIdempotent | src/app/components/reports/report-viewer/report-viewer.component.ts:261 | sanitizing a sanitized name changes nothing |
| ReportViewer.SafeName | src/app/components/reports/report-viewer/report-viewer.component.ts:261 | an empty name gives `report`; any other name gives its sanitized form |
| ReportViewer.Viewer.ExportToExcel | src/app/components/reports/report-viewer/report-viewer.component.ts:239-264 | no export without a report or rows; otherwise the formatted rows under the safe file name |
| ValueFormat.FormatDate | src/app/components/reports/report-viewer/report-viewer.component.ts:278-288 | a value that is not a date is shown as text; with no format or the ISO format, a date is exactly the first ten characters of its ISO text (all of it when shorter) |
| ValueFormat.FormatNumber | src/app/components/reports/report-viewer/report-viewer.component.ts:289-299 | a value that is not a number is shown as text; a number is shown with prefix, digits and suffix |
| ValueFormat.Symbol | src/app/components/reports/report-viewer/report-viewer.component.ts:300-310 | the currency symbol is never empty, and it is the configured one when there is one |
| ValueFormat.FormatCurrency | src/app/components/reports/report-viewer/report-viewer.component.ts:300-310 | a value that is not a number is shown as text; a number gets its symbol before or after the digits |
| ValueFormat.FormatValue | src/app/components/reports/report-viewer/report-viewer.component.ts:266-336 | a missing cell is empty; without formatting it is the cell's text, with objects as JSON; each formatting kind goes to its own formatter |
| ValueFormat.FormatBoolean | src/app/components/reports/report-viewer/report-viewer.component.ts:311-320 | a truthy value shows one of `Yes`, `1`, `✓`, `true`, a falsy one `No`, `0`, `✗`, `false`; no style means `true` / `false` |
| ValueFormat.FormatString | src/app/components/reports/report-viewer/report-viewer.component.ts:322-330 | upper or lower case of the text, an empty text capitalised to the upper-cased empty text, and the text itself for any other case setting |
| ValueFormat.BooleanFollowsTruthiness | src/app/components/reports/report-viewer/report-viewer.component.ts:311-321 | two values are shown alike exactly when both are truthy or both are falsy |
| ValueFormat.BooleanStyleTable | src/app/components/reports/report-viewer/report-viewer.component.ts:311-321 | the word pairs of the `yes/no`, `1/0` and check-mark styles, and `true/false` for any other style |
| ValueFormat.DeclaredStylesFallBack | src/app/components/reports/report-viewer/report-viewer.component.ts:311-321 | the `check/x` and `enabled/disabled` styles show the same as `true/false` |
| ValueFormat.CapitalizeKeepsTail | src/app/components/reports/report-viewer/report-viewer.component.ts:322-333 | capitalizing changes only the first character |
| ValueFormat.OtherCaseIsIdentity | src/app/components/reports/report-viewer/report-viewer.component.ts:322-333 | a case setting other than upper, lower or capitalize leaves the text as it is |
| ValueFormat.TruncateIgnored | src/app/components/reports/report-viewer/report-viewer.component.ts:322-330 | the truncation limit a string format carries never changes the text shown |
| AppState.FirstWithId | src/app/services/app-state.service.ts:67 | the index of the first report with the id |
| AppState.DedupIds | src/app/services/app-state.service.ts:64-78 | the deduplicated list has distinct ids, the same ids as the input, and is no longer |
| AppState.DedupKeepsFirst | src/app/services/app-state.service.ts:64-78 | each kept report is the first of the input with its id |
| AppState.DedupKeepsOrder | src/app/services/app-state.service.ts:64-78 | kept reports appear in the order of their first occurrence |
| AppState.DedupIdempotent | src/app/services/app-state.service.ts:64-78 | a list with distinct ids is kept as it is |
| AppState.RemoveId | src/app/services/app-state.service.ts:99-102 | no report with the id is left, every other report is kept, and the kept ones stay in their order |
| AppState.RemoveIdSubsequence | src/app/services/app-state.service.ts:99-102 | removing keeps the ids distinct |
| AppState.Updated | src/app/services/app-state.service.ts:91-97 | the report ends the list, no other entry has its id, and the other reports are kept in their order before it |
| AppState.AddedIsUpdated | src/app/services/app-state.service.ts:80-97 | adding gives the same list as updating, whether or not the id was present |
| AppState.UpdatedKeepsOthers | src/app/services/app-state.service.ts:91-97 | apart from the report's id, the list is as before |
| AppState.UpdatedKeepsDistinct | src/app/services/app-state.service.ts:91-97 | updating keeps the ids distinct |
| AppState.Replaced | src/app/services/app-state.service.ts:48-52 | entries with the source's id are replaced by it and all others are kept, in place |
| AppState.ReplacedIdempotent | src/app/services/app-state.service.ts:48-52 | replacing twice is replacing once |
| AppState.WithoutSource | src/app/services/app-state.service.ts:54-57 | exactly the sources with another id are kept, in their order |
| AppState.Store.constructor | src/app/services/app-state.service.ts:12-21 | the first mock user is current, and there are no data sources or reports |
| AppState.Store.GetCurrentUser | src/app/services/app-state.service.ts:26-28 | returns the current user |
| AppState.Store.SetCurrentUser | src/app/services/app-state.service.ts:30-33 | only the current user changes |
| AppState.Store.GetDataSources | src/app/services/app-state.service.ts:35-37 | returns the data sources |
| AppState.Store.SetDataSources | src/app/services/app-state.service.ts:39-41 | only the data sources change |
| AppState.Store.AddDataSource | src/app/services/app-state.service.ts:43-46 | the source is appended |
| AppState.Store.UpdateDataSource | src/app/services/app-state.service.ts:48-52 | the sources become `Replaced` of the old ones |
| AppState.Store.RemoveDataSource | src/app/services/app-state.service.ts:54-57 | the sources become `WithoutSource` of the old ones |
| AppState.Store.GetReports | src/app/services/app-state.service.ts:60-62 | returns the reports |
| AppState.Store.SetReports | src/app/services/app-state.service.ts:64-78 | the loop stores the deduplicated list, whose ids are distinct |
| AppState.Store.AddReport | src/app/services/app-state.service.ts:80-89 | the reports become `Added` of the old ones and distinct ids stay distinct |
| AppState.Store.UpdateReport | src/app/services/app-state.service.ts:91-97 | the reports become `Updated` of the old ones and distinct ids stay distinct |
| AppState.Store.RemoveReport | src/app/services/app-state.service.ts:99-102 | the reports become `RemoveId` of the old ones and distinct ids stay distinct |
| DatasourceEditor.ToggledExposure | src/app/components/datasources/datasource-editor/datasource-editor.component.ts:163-173 | entries with the id have `exposed` flipped; all others are unchanged |
| DatasourceEditor.ToggleExposureTwice | src/app/components/datasources/datasource-editor/datasource-editor.component.ts:163-173 | toggling twice restores the list |
| DatasourceEditor.ToggleExposureOnlyFlips | src/app/components/datasources/datasource-editor/datasource-editor.component.ts:163-173 | only the exposure of entries with the id changes |
| DatasourceEditor.WithTableField | src/app/components/datasources/datasource-editor/datasource-editor.component.ts:175-179 | sets the alias or the description and keeps every other field |
| DatasourceEditor.TableMetadataUpdated | src/app/components/datasources/datasource-editor/datasource-editor.component.ts:175-179 | entries with the id get the field set; all others are unchanged |
| DatasourceEditor.WithColumnField | src/app/components/datasources/datasource-editor/datasource-editor.component.ts:181-189 | sets the alias, the description or the sample value and keeps every other field |
| DatasourceEditor.ColumnMetadataUpdated | src/app/components/datasources/datasource-editor/datasource-editor.component.ts:181-205 | only the matching columns of the matching entries change, and only in that field |
| DatasourceEditor.MetadataKeepsSchemaShape | src/app/components/datasources/datasource-editor/datasource-editor.component.ts:175-205 | metadata edits keep each entry's id and exposure, and a table edit keeps its columns |
| DatasourceEditor.Expanded | src/app/components/datasources/datasource-editor/datasource-editor.component.ts:207-209 | the clicked table is expanded exactly when it was not the expanded one |
| DatasourceEditor.ExpandedTwice | src/app/components/datasources/datasource-editor/datasource-editor.component.ts:207-209 | clicking twice returns to the start, except that another expanded table ends collapsed |
| DatasourceEditor.BuildDataSource | src/app/components/datasources/datasource-editor/datasource-editor.component.ts:81-98 | nothing is saved without a name; the id is the edited one or fresh; name, description, kind, tables and views are copied from the form; connection details are kept exactly for non-custom sources; the creation time is the current time for a new source, and kept when editing unless it is empty, when it becomes the current time |
| DatasourceEditor.Editor.constructor | src/app/components/datasources/datasource-editor/datasource-editor.component.ts:23-37 | an empty `sql` form with the default local connection |
| DatasourceEditor.Editor.ToggleTableExposure | src/app/components/datasources/datasource-editor/datasource-editor.component.ts:163-167 | the tables become `ToggledExposure` of the old ones |
| DatasourceEditor.Editor.ToggleViewExposure | src/app/components/datasources/datasource-editor/datasource-editor.component.ts:169-173 | the views become `ToggledExposure` of the old ones |
| DatasourceEditor.Editor.UpdateTableMetadata | src/app/components/datasources/datasource-editor/datasource-editor.component.ts:175-179 | the tables become `TableMetadataUpdated` of the old ones |
| DatasourceEditor.Editor.UpdateColumnMetadata | src/app/components/datasources/datasource-editor/datasource-editor.component.ts:181-189 | the tables become `ColumnMetadataUpdated` of the old ones |
| DatasourceEditor.Editor.UpdateViewMetadata | src/app/components/datasources/datasource-editor/datasource-editor.component.ts:191-195 | the views become `TableMetadataUpdated` of the old ones |
| DatasourceEditor.Editor.UpdateViewColumnMetadata | src/app/components/datasources/datasource-editor/datasource-editor.component.ts:197-205 | the views become `ColumnMetadataUpdated` of the old ones |
| DatasourceEditor.Editor.ToggleTable | src/app/components/datasources/datasource-editor/datasource-editor.component.ts:207-209 | the expanded table becomes `Expanded` of the old one |
| DatasourceEditor.Editor.SaveRecord | src/app/components/datasources/datasource-editor/datasource-editor.component.ts:81-98 | the record sent is `BuildDataSource` of the form |
| ReportList.FilteredReports | src/app/components/reports/report-list/report-list.component.ts:46-54 | every listed report is public or the user's own, and the listed reports keep the order of the full list |
| ReportList.FilteredReportsMembers | src/app/components/reports/report-list/report-list.component.ts:46-54 | with `mine` and a user, exactly that user's reports; otherwise exactly the public ones and the user's own |
| Seqs.FilterInOrder | src/app/components/reports/report-list/report-list.component.ts:48-53 | `filter` returns, at each position k, the element at the k-th index whose element passes, so exactly the passing elements in their original order |
| ReportList.AnonymousSeesPublicOnly | src/app/components/reports/report-list/report-list.component.ts:46-54 | without a user, exactly the public reports are listed under either filter |
| ReportList.CanModifyByRole | src/app/components/reports/report-list/report-list.component.ts:56-59 | an administrator may modify every report, a regular user exactly their own, and nobody without a user |
| ReportList.DataSourceName | src/app/components/reports/report-list/report-list.component.ts:61-64 | the name of the first source with the id, or `Unknown Source` when no source has the id or that first source is unnamed |
| ReportList.OwnerName | src/app/components/reports/report-list/report-list.component.ts:66-70 | `Me` for the current user, then the mock user's name, then `Unknown` |
| ReportList.AfterDeleteEffect | src/app/components/reports/report-list/report-list.component.ts:89-107 | the list changes exactly when a report with the id exists, the user may modify it, and the deletion is confirmed and accepted; it then loses exactly that report |
| ReportList.DeleteReport | src/app/components/reports/report-list/report-list.component.ts:89-107 | the store's reports become `AfterDelete` of the old ones, and nothing else changes |
| Dashboard.MyReports | src/app/components/dashboard/dashboard.component.ts:51-54 | no reports without a user; otherwise exactly the user's own, in list order |
| Dashboard.ScheduledReports | src/app/components/dashboard/dashboard.component.ts:56-58 | exactly the reports with a switched-on schedule, in list order |
| Dashboard.OrderMapIsLastPosition | src/app/components/dashboard/dashboard.component.ts:71-74 | the order map has exactly the viewed ids, each at its last position |
| Dashboard.BuildOrderMap | src/app/components/dashboard/dashboard.component.ts:71-74 | the loop builds exactly that order map |
| Dashboard.BucketedSorted | src/app/components/dashboard/dashboard.component.ts:82-87 | the bucket sort puts every report below the key bound and orders them by key |
| Dashboard.BucketedStable | src/app/components/dashboard/dashboard.component.ts:82-87 | the sort is stable: the reports with any one key appear in the order they have in the input |
| Dashboard.BucketedPermutes | src/app/components/dashboard/dashboard.component.ts:82-87 | the stable sort is a permutation |
| Dashboard.Take | src/app/components/dashboard/dashboard.component.ts:88 | the first `min(n, length)` entries: exactly `n` of them when the list is longer, the whole list otherwise |
| Dashboard.RecentReports | src/app/components/dashboard/dashboard.component.ts:60-91 | at most ten reports, and none without a user |
| Dashboard.RecentReportsAccessible | src/app/components/dashboard/dashboard.component.ts:76-81 | every recent report is accessible to the user and was viewed |
| Dashboard.RecentReportsOrdered | src/app/components/dashboard/dashboard.component.ts:82-87 | recent reports are ordered by their position in the viewing history |
| Dashboard.RecentReportsPermutes | src/app/components/dashboard/dashboard.component.ts:76-88 | recent reports are the first entries of the stable sort of the accessible viewed reports, exactly ten of them when there are more, and all of them when there are at most ten |
| Dashboard.RecentReportsFallback | src/app/components/dashboard/dashboard.component.ts:63-68 | with no viewing history, the first ten accessible reports |
| Dashboard.ComputeRecentReports | src/app/components/dashboard/dashboard.component.ts:60-91 | computes exactly `RecentReports` |
| Navigation.SplitJoinRoundTrip | src/app/components/navigation/navigation.component.ts:34-36 | joining the space-split segments gives the name back |
| Navigation.SplitShape | src/app/components/navigation/navigation.component.ts:34-36 | one segment more than there are spaces, and no segment holds a space |
| Navigation.FirstChars | src/app/components/navigation/navigation.component.ts:34-36 | at most one character per segment, each the first character of a non-empty segment |
| Navigation.InitialsBounded | src/app/components/navigation/navigation.component.ts:34-36 | at most one initial per segment, and none is a space |
| Navigation.InitialsOfSingleWord | src/app/components/navigation/navigation.component.ts:34-36 | a name without spaces has its first character as its only initial, and the empty name has none |
| Navigation.InitialsSkipEmptySegments | src/app/components/navigation/navigation.component.ts:34-36 | leading and trailing spaces add no initials |
| Navigation.InitialsAtSpace | src/app/components/navigation/navigation.component.ts:34-36 | the initials of two parts joined by a space are the initials of each part |
| Navigation.UserFor | src/app/components/navigation/navigation.component.ts:26-32 | a user is found exactly for `u1`, `u2` and `u3`, and it is the mock user with that id |
| Navigation.OnUserChange | src/app/components/navigation/navigation.component.ts:26-32 | only a known id changes the current user; the rest of the store is unchanged |

## Left out

- Server calls are not modelled. This covers the report, data-source and view-tracking services, the HTTP client and the AI data generator; their answers are parameters.
- Observable subscriptions are left out, and so is the part of component start-up (`ngOnInit`) that loads a report or data source by route id, including the builder's edit-mode load. The builder's reaction to a state change (the default source and the owner) is modelled by `ReportBuilder.Builder.OnStateChange`.
- The builder's `onSave`, with its create-or-update and retry, is left out because it is server traffic.
- The editor's `handleDiscoverSchema` is left out because schema discovery is a server call.
- Navigation between pages, `onCancel`, `onBack` and `onRefresh` are left out because they are router and timer calls.
- The viewer's `isView` is left out; it only feeds display.
- `generateUUID` is left out; fresh ids are parameters.
- The clock is left out. The current time and elapsed milliseconds are parameters, and `lastRun` is not kept.
- Floating-point arithmetic, `toLocaleString`, `toFixed` and date rendering are left out. The `Host` record stands for them, so digits and dates are not checked.
- `NaN` and infinities are not values of the model.
- Writing the spreadsheet file is left out, including the date suffix of the file name; the export yields the rows and the safe name.
- Alerts, confirmation dialogs and console messages are left out; confirmation is a parameter.
- Aggregation and grouping fields of a report are not part of the record, because the core never reads them.
- Optional fields are modelled as empty values: views are the empty list and optional strings are "".
- The `Infinity` sort key for an unviewed report becomes `|ids|`, one more than any position. Only viewed reports are sorted, so this changes nothing.
- ReportBuilder.DefaultFormatting: the contract states only that the default has the column's own type; the individual default settings (date pattern, decimal places, symbol) are constants of its body.
- ValueFormat.Raw has no array values. A JSON cell holding an array is treated as an object, while JavaScript renders `String([1,2])` as `1,2` and converts `Number([5])` to 5; string, number and currency formatting of an array cell are therefore not modelled.
- ReportViewer.ExportRow builds a map from caption to text. The key order of the object handed to the spreadsheet writer, which fixes the sheet's column order, is not modelled.
- Navigation.Initials works on Unicode characters. JavaScript's `n[0]` takes the first UTF-16 code unit, which differs for a name starting with a character outside the Basic Multilingual Plane, such as an emoji.
- ValueFormat.FormatString: the `capitalize` case upper-cases the first Unicode character, where JavaScript's `str.charAt(0)` takes the first UTF-16 code unit. For a text starting with a cased letter outside the Basic Multilingual Plane (such as Deseret `𐐨`) the source leaves the text unchanged while the model upper-cases it.
- ValueFormat.CapitalizeKeepsTail: states the same Unicode-character head as FormatString, not the UTF-16 code unit of the source.
