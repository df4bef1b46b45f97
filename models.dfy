/** The records the report pipeline works on: report definitions, data-source
    schemas and users. They carry no behaviour of their own.

    Optional text fields of the application (aliases, descriptions, number
    prefixes, ...) are plain strings here, with "" standing for "absent":
    every reader of such a field falls back with `||`, which treats the empty
    string and a missing value alike. */
module Models {

  datatype Option<T> = None | Some(value: T)

  // ---------------------------------------------------------------------
  // Data-source schema

  /** The semantic type of a column. */
  datatype ColumnType = StringType | NumberType | DateType | BooleanType | CurrencyType

  /** The tag the application stores for a column type. */
  function TypeName(t: ColumnType): string
  {
    match t
    case StringType => "string"
    case NumberType => "number"
    case DateType => "date"
    case BooleanType => "boolean"
    case CurrencyType => "currency"
  }

  datatype ColumnDef = ColumnDef(
    id: string,
    name: string,
    colType: ColumnType,
    alias: string,
    description: string,
    sampleValue: string,
    isPii: bool)

  /** A table or a view: the two are interchangeable for reporting, so they
      share one record; `definition` (the view's query) is "" for tables. */
  datatype TableDef = TableDef(
    id: string,
    name: string,
    description: string,
    alias: string,
    columns: seq<ColumnDef>,
    exposed: bool,
    definition: string)

  /** `i` is the first table or view with id `id`, the one `find` returns. */
  predicate FirstTable(tables: seq<TableDef>, id: string, i: int)
  {
    0 <= i < |tables| && tables[i].id == id && forall k :: 0 <= k < i ==> tables[k].id != id
  }

  predicate HasColumn(columns: seq<ColumnDef>, id: string)
  {
    exists j :: 0 <= j < |columns| && columns[j].id == id
  }

  /** `j` is the first column with id `id`. */
  predicate FirstColumn(columns: seq<ColumnDef>, id: string, j: int)
  {
    0 <= j < |columns| && columns[j].id == id && forall k :: 0 <= k < j ==> columns[k].id != id
  }

  function TableIdIs(id: string): TableDef -> bool
  {
    (tb: TableDef) => tb.id == id
  }

  function ColumnIdIs(id: string): ColumnDef -> bool
  {
    (c: ColumnDef) => c.id == id
  }

  datatype ConnectionDetails = ConnectionDetails(
    host: string,
    port: string,
    database: string,
    username: string,
    password: string)

  datatype SourceKind = Postgres | MySql | Snowflake | Sql | Custom

  datatype DataSource = DataSource(
    id: string,
    name: string,
    description: string,
    kind: SourceKind,
    connectionDetails: Option<ConnectionDetails>,
    tables: seq<TableDef>,
    views: seq<TableDef>,
    createdAt: string)

  // ---------------------------------------------------------------------
  // Column formatting: one configuration record per column type

  datatype DateFormatting = DateFormatting(format: string)

  datatype NumberFormatting = NumberFormatting(
    decimalPlaces: nat,
    thousandSeparator: bool,
    prefix: string,
    suffix: string)

  datatype CurrencyFormatting = CurrencyFormatting(
    symbol: string,
    decimalPlaces: nat,
    thousandSeparator: bool,
    symbolPosition: string)

  datatype BooleanFormatting = BooleanFormatting(style: string)

  datatype StringFormatting = StringFormatting(letterCase: string, truncate: Option<nat>)

  datatype FormattingConfig =
    | DateFormat(date: DateFormatting)
    | NumberFormat(number: NumberFormatting)
    | CurrencyFormat(currency: CurrencyFormatting)
    | BooleanFormat(boolean: BooleanFormatting)
    | StringFormat(str: StringFormatting)
    | NoFormat

  // ---------------------------------------------------------------------
  // Report definitions

  datatype ReportColumn = ReportColumn(
    tableId: string,
    columnId: string,
    alias: string,
    formatting: Option<FormattingConfig>)

  datatype Operator =
    | Equals | NotEquals | Contains | NotContains | StartsWith | EndsWith
    | Gt | Gte | Lt | Lte | Between
    | IsNull | IsNotNull | IsEmpty | IsNotEmpty
    | In | Today | ThisWeek | ThisMonth | ThisYear

  datatype FilterCondition = FilterCondition(
    id: string,
    tableId: string,
    columnId: string,
    operator: Operator,
    value: string,
    value2: Option<string>)

  datatype SortDirection = Asc | Desc

  datatype SortCondition = SortCondition(tableId: string, columnId: string, direction: SortDirection)

  datatype Visibility = Public | Private

  datatype Visualization = TableChart | BarChart | LineChart | PieChart | AreaChart

  datatype Frequency = Daily | Weekly | Monthly

  datatype ScheduleConfig = ScheduleConfig(enabled: bool, frequency: Frequency, time: string)

  datatype ReportConfig = ReportConfig(
    id: string,
    dataSourceId: string,
    ownerId: string,
    visibility: Visibility,
    name: string,
    description: string,
    selectedColumns: seq<ReportColumn>,
    filters: seq<FilterCondition>,
    sorts: seq<SortCondition>,
    visualization: Visualization,
    schedule: ScheduleConfig,
    createdAt: string)

  // ---------------------------------------------------------------------
  // Users

  datatype UserRole = Admin | RegularUser

  datatype User = User(id: string, name: string, email: string, role: UserRole)

  /** The fixed development users the application switches between. */
  const MockUsers: seq<User> := [
    User("u1", "Alice Admin", "alice@dataflow.com", Admin),
    User("u2", "Bob Analyst", "bob@dataflow.com", RegularUser),
    User("u3", "Charlie Viewer", "charlie@dataflow.com", RegularUser)
  ]
}
