/** Rendering one cell of a report: the single formatting path shared by the
    on-screen table and the spreadsheet export.

    Cell values are JavaScript values (`Raw`). The conversions the renderer
    borrows from the JavaScript runtime and that depend on floating point,
    locale or time zone (number parsing, `toFixed`, `toLocaleString`, date
    parsing and printing, case mapping) are not modelled: they are fields of
    a `Host` record passed in, and everything the renderer decides around
    them is modelled exactly. */
module ValueFormat {
  import opened Models
  import opened Seqs

  /** A cell value as a fetched row holds it. Objects are plain objects,
      carried with their JSON text. */
  datatype Raw = Undefined | Null | Bool(b: bool) | Num(n: real) | Str(s: string) | Obj(json: string)

  /** The runtime conversions the renderer relies on. */
  datatype Host = Host(
    numberText: real -> string,        // String(n)
    parseNumber: string -> Option<real>, // Number(s), None for NaN
    parseDate: Raw -> Option<int>,      // new Date(raw).getTime(), None for NaN
    usDate: int -> string,              // toLocaleDateString('en-US')
    gbDate: int -> string,              // toLocaleDateString('en-GB')
    isoText: int -> string,             // toISOString()
    localeText: int -> string,          // toLocaleString()
    fixed: (real, nat) -> string,       // toFixed(dec)
    grouped: (real, nat) -> string,     // toLocaleString with dec fraction digits
    upper: string -> string,            // toUpperCase()
    lower: string -> string)            // toLowerCase()

  /** `String(raw)` */
  function StringOf(host: Host, raw: Raw): string
  {
    match raw
    case Undefined => "undefined"
    case Null => "null"
    case Bool(b) => if b then "true" else "false"
    case Num(n) => host.numberText(n)
    case Str(s) => s
    case Obj(_) => "[object Object]"
  }

  /** `Number(raw)`, with None for NaN. */
  function ToNumber(host: Host, raw: Raw): Option<real>
  {
    match raw
    case Undefined => None
    case Null => Some(0.0)
    case Bool(b) => Some(if b then 1.0 else 0.0)
    case Num(n) => Some(n)
    case Str(s) => host.parseNumber(s)
    case Obj(_) => None
  }

  /** `!!raw` */
  predicate Truthy(raw: Raw)
  {
    match raw
    case Undefined => false
    case Null => false
    case Bool(b) => b
    case Num(n) => n != 0.0
    case Str(s) => s != ""
    case Obj(_) => true
  }

  /** One projected column of a report view. */
  datatype DisplayedColumn = DisplayedColumn(
    key: string,
    caption: string,
    formatting: Option<FormattingConfig>,
    colType: Option<ColumnType>)

  type Row = map<string, Raw>

  /** `row[key]`, undefined when the row has no such property. */
  function Cell(row: Row, key: string): Raw
  {
    if key in row then row[key] else Undefined
  }

  predicate Missing(raw: Raw)
  {
    raw.Undefined? || raw.Null?
  }

  /** The digits of a number: grouped per locale or plain fixed-point. */
  function Digits(host: Host, n: real, places: nat, thousands: bool): string
  {
    if thousands then host.grouped(n, places) else host.fixed(n, places)
  }

  function FormatDate(host: Host, raw: Raw, cfg: DateFormatting): (r: string)
    ensures host.parseDate(raw).None? ==> r == StringOf(host, raw)
    ensures host.parseDate(raw).Some? && (cfg.format == "" || cfg.format == "YYYY-MM-DD") ==>
      var iso := host.isoText(host.parseDate(raw).value);
      r == if |iso| <= 10 then iso else iso[..10]
  {
    match host.parseDate(raw)
    case None => StringOf(host, raw)
    case Some(t) =>
      var format := OrElse(cfg.format, "YYYY-MM-DD");
      if format == "MM/DD/YYYY" then host.usDate(t)
      else if format == "DD/MM/YYYY" then host.gbDate(t)
      else if format == "YYYY-MM-DD" then
        var iso := host.isoText(t);
        if |iso| <= 10 then iso else iso[..10]
      else host.localeText(t)
  }

  function FormatNumber(host: Host, raw: Raw, cfg: NumberFormatting): (r: string)
    ensures ToNumber(host, raw).None? ==> r == StringOf(host, raw)
    ensures ToNumber(host, raw).Some? ==>
      r == cfg.prefix + Digits(host, ToNumber(host, raw).value, cfg.decimalPlaces, cfg.thousandSeparator) + cfg.suffix
  {
    match ToNumber(host, raw)
    case None => StringOf(host, raw)
    case Some(n) => cfg.prefix + Digits(host, n, cfg.decimalPlaces, cfg.thousandSeparator) + cfg.suffix
  }

  /** The currency symbol, `$` when none is configured. */
  function Symbol(cfg: CurrencyFormatting): (s: string)
    ensures s != ""
    ensures cfg.symbol != "" ==> s == cfg.symbol
  {
    OrElse(cfg.symbol, "$")
  }

  function FormatCurrency(host: Host, raw: Raw, cfg: CurrencyFormatting): (r: string)
    ensures ToNumber(host, raw).None? ==> r == StringOf(host, raw)
    ensures ToNumber(host, raw).Some? ==>
      var digits := Digits(host, ToNumber(host, raw).value, cfg.decimalPlaces, cfg.thousandSeparator);
      r == if cfg.symbolPosition == "after" then digits + Symbol(cfg) else Symbol(cfg) + digits
  {
    match ToNumber(host, raw)
    case None => StringOf(host, raw)
    case Some(n) =>
      var digits := Digits(host, n, cfg.decimalPlaces, cfg.thousandSeparator);
      var pos := if cfg.symbolPosition == "after" then "after" else "before";
      if pos == "before" then Symbol(cfg) + digits else digits + Symbol(cfg)
  }

  /** The word a boolean style uses for truth value `val`. */
  function FormatBoolean(raw: Raw, cfg: BooleanFormatting): (r: string)
    ensures Truthy(raw) ==> r in {"Yes", "1", "✓", "true"}
    ensures !Truthy(raw) ==> r in {"No", "0", "✗", "false"}
    ensures cfg.style == "" ==> r == if Truthy(raw) then "true" else "false"
  {
    var style := OrElse(cfg.style, "true/false");
    var val := Truthy(raw);
    if style == "yes/no" then (if val then "Yes" else "No")
    else if style == "1/0" then (if val then "1" else "0")
    else if style == "✓/✗" then (if val then "✓" else "✗")
    else (if val then "true" else "false")
  }

  function FormatString(host: Host, raw: Raw, cfg: StringFormatting): (r: string)
    ensures cfg.letterCase == "uppercase" ==> r == host.upper(StringOf(host, raw))
    ensures cfg.letterCase == "lowercase" ==> r == host.lower(StringOf(host, raw))
    ensures cfg.letterCase == "capitalize" && StringOf(host, raw) == "" ==> r == host.upper("")
    ensures cfg.letterCase !in {"uppercase", "lowercase", "capitalize"} ==> r == StringOf(host, raw)
  {
    var str := StringOf(host, raw);
    if cfg.letterCase == "uppercase" then host.upper(str)
    else if cfg.letterCase == "lowercase" then host.lower(str)
    else if cfg.letterCase == "capitalize" then
      host.upper(if |str| > 0 then str[..1] else "") + (if |str| > 0 then str[1..] else "")
    else str
  }

  /** The text shown for column `col` of `row`. */
  function FormatValue(host: Host, row: Row, col: DisplayedColumn): (r: string)
    ensures Missing(Cell(row, col.key)) ==> r == ""
    ensures !Missing(Cell(row, col.key)) && col.formatting.None? ==>
      r == if Cell(row, col.key).Obj? then Cell(row, col.key).json else StringOf(host, Cell(row, col.key))
    ensures !Missing(Cell(row, col.key)) && col.formatting == Some(NoFormat) ==> r == StringOf(host, Cell(row, col.key))
    ensures !Missing(Cell(row, col.key)) && col.formatting.Some? && col.formatting.value.DateFormat? ==>
      r == FormatDate(host, Cell(row, col.key), col.formatting.value.date)
    ensures !Missing(Cell(row, col.key)) && col.formatting.Some? && col.formatting.value.NumberFormat? ==>
      r == FormatNumber(host, Cell(row, col.key), col.formatting.value.number)
    ensures !Missing(Cell(row, col.key)) && col.formatting.Some? && col.formatting.value.CurrencyFormat? ==>
      r == FormatCurrency(host, Cell(row, col.key), col.formatting.value.currency)
    ensures !Missing(Cell(row, col.key)) && col.formatting.Some? && col.formatting.value.BooleanFormat? ==>
      r == FormatBoolean(Cell(row, col.key), col.formatting.value.boolean)
    ensures !Missing(Cell(row, col.key)) && col.formatting.Some? && col.formatting.value.StringFormat? ==>
      r == FormatString(host, Cell(row, col.key), col.formatting.value.str)
  {
    var raw := Cell(row, col.key);
    if Missing(raw) then ""
    else match col.formatting
      case None => if raw.Obj? then raw.json else StringOf(host, raw)
      case Some(fmt) =>
        match fmt
        case DateFormat(cfg) => FormatDate(host, raw, cfg)
        case NumberFormat(cfg) => FormatNumber(host, raw, cfg)
        case CurrencyFormat(cfg) => FormatCurrency(host, raw, cfg)
        case BooleanFormat(cfg) => FormatBoolean(raw, cfg)
        case StringFormat(cfg) => FormatString(host, raw, cfg)
        case NoFormat => StringOf(host, raw)
  }

  // ---------------------------------------------------------------------
  // Properties of the renderer

  /** Boolean rendering looks only at the value's truthiness, and the two
      truth values always render differently. */
  lemma BooleanFollowsTruthiness(a: Raw, b: Raw, cfg: BooleanFormatting)
    ensures Truthy(a) == Truthy(b) ==> FormatBoolean(a, cfg) == FormatBoolean(b, cfg)
    ensures Truthy(a) != Truthy(b) ==> FormatBoolean(a, cfg) != FormatBoolean(b, cfg)
  {
  }

  /** The style table: each recognised style's pair of words; every other
      style, and an empty one, renders `true` / `false`. */
  lemma BooleanStyleTable(raw: Raw, style: string)
    ensures style == "yes/no" ==> FormatBoolean(raw, BooleanFormatting(style)) == if Truthy(raw) then "Yes" else "No"
    ensures style == "1/0" ==> FormatBoolean(raw, BooleanFormatting(style)) == if Truthy(raw) then "1" else "0"
    ensures style == "✓/✗" ==>
      FormatBoolean(raw, BooleanFormatting(style)) == if Truthy(raw) then "✓" else "✗"
    ensures style !in {"yes/no", "1/0", "✓/✗"} ==>
      FormatBoolean(raw, BooleanFormatting(style)) == if Truthy(raw) then "true" else "false"
  {
  }

  /** Two of the styles the formatting record declares, 'check/x' and
      'enabled/disabled', are not recognised by the renderer and show as
      `true` / `false`. */
  lemma DeclaredStylesFallBack(raw: Raw)
    ensures FormatBoolean(raw, BooleanFormatting("check/x")) == FormatBoolean(raw, BooleanFormatting("true/false"))
    ensures FormatBoolean(raw, BooleanFormatting("enabled/disabled")) == FormatBoolean(raw, BooleanFormatting("true/false"))
  {
  }

  /** Capitalising touches the first character only. */
  lemma CapitalizeKeepsTail(host: Host, raw: Raw, truncate: Option<nat>)
    requires |StringOf(host, raw)| > 0
    ensures var s := StringOf(host, raw);
      FormatString(host, raw, StringFormatting("capitalize", truncate)) == host.upper([s[0]]) + s[1..]
  {
    var s := StringOf(host, raw);
    assert s[..1] == [s[0]];
  }

  /** An unrecognised case transform leaves the text as it is. */
  lemma OtherCaseIsIdentity(host: Host, raw: Raw, cfg: StringFormatting)
    requires cfg.letterCase !in {"uppercase", "lowercase", "capitalize"}
    ensures FormatString(host, raw, cfg) == StringOf(host, raw)
  {
  }

  /** The truncation limit the formatting record carries is never applied. */
  lemma TruncateIgnored(host: Host, raw: Raw, cfg: StringFormatting, limit: Option<nat>)
    ensures FormatString(host, raw, cfg.(truncate := limit)) == FormatString(host, raw, cfg)
  {
  }
}
