/** The diesel schema parser (crates/lib/src/parser.rs): `table!` and
    `joinable!` macros, already split into token trees, become parsed tables
    with their columns, primary keys and foreign keys.

    Each token loop of the source is specified by a step function over an
    explicit scanner state and a left fold of that step over the tokens; the
    methods run the loops and are proved equal to the folds. */
module Parser {
  import opened Wrappers
  import opened Errors
  import opened Strings
  import opened Options
  import opened Schema
  import opened Structs
  import Code

  const UNSUPPORTED_TYPE_MESSAGE: string :=
    "Unsigned types are not yet supported, please open an issue if you need this feature!"

  /** Lower-cased type names the generator refuses. */
  const UnsupportedTypeNames: set<string> := {"unsigned", "inet", "cidr"}

  /** The Rust type of a known diesel SQL type, given its lower-cased name. */
  function BuiltinRustType(lower: string): Option<string> {
    match lower
    // boolean
    case "bool" => Some("bool")
    // numbers
    case "tinyint" => Some("i8")
    case "smallint" => Some("i16")
    case "smallserial" => Some("i16")
    case "int2" => Some("i16")
    case "int4" => Some("i32")
    case "int4range" => Some("(std::collections::Bound<i32>, std::collections::Bound<i32>)")
    case "integer" => Some("i32")
    case "serial" => Some("i32")
    case "bigint" => Some("i64")
    case "bigserial" => Some("i64")
    case "int8" => Some("i64")
    case "int8range" => Some("(std::collections::Bound<i64>, std::collections::Bound<i64>)")
    case "float" => Some("f32")
    case "float4" => Some("f32")
    case "double" => Some("f64")
    case "float8" => Some("f64")
    case "numeric" => Some("bigdecimal::BigDecimal")
    case "numrange" => Some("(std::collections::Bound<bigdecimal::BigDecimal>, std::collections::Bound<bigdecimal::BigDecimal>)")
    case "decimal" => Some("bigdecimal::BigDecimal")
    // string
    case "text" => Some("String")
    case "varchar" => Some("String")
    case "bpchar" => Some("String")
    case "char" => Some("String")
    case "tinytext" => Some("String")
    case "mediumtext" => Some("String")
    case "longtext" => Some("String")
    // bytes
    case "binary" => Some("Vec<u8>")
    case "bytea" => Some("Vec<u8>")
    case "tinyblob" => Some("Vec<u8>")
    case "blob" => Some("Vec<u8>")
    case "mediumblob" => Some("Vec<u8>")
    case "longblob" => Some("Vec<u8>")
    case "varbinary" => Some("Vec<u8>")
    case "bit" => Some("Vec<u8>")
    // date & time
    case "date" => Some("chrono::NaiveDate")
    case "daterange" => Some("(std::collections::Bound<chrono::NaiveDate>, std::collections::Bound<chrono::NaiveDate>)")
    case "datetime" => Some("chrono::NaiveDateTime")
    case "time" => Some("chrono::NaiveTime")
    case "timestamp" => Some("chrono::NaiveDateTime")
    case "tsrange" => Some("(std::collections::Bound<chrono::NaiveDateTime>, std::collections::Bound<chrono::NaiveDateTime>)")
    case "timestamptz" => Some("chrono::DateTime<chrono::Utc>")
    case "timestamptzsqlite" => Some("chrono::DateTime<chrono::Utc>")
    case "tstzrange" => Some("(std::collections::Bound<chrono::DateTime<chrono::Utc>>, std::collections::Bound<chrono::DateTime<chrono::Utc>>)")
    // json
    case "json" => Some("serde::Value")
    case "jsonb" => Some("serde_json::Value")
    // misc
    case "uuid" => Some("uuid::Uuid")
    case "interval" => Some("PgInterval")
    case "oid" => Some("u32")
    case "money" => Some("PgMoney")
    case "macaddr" => Some("[u8; 6]")
    case _ => None
  }

  /** `schema_type_to_rust_type`: the name is matched lower-cased; three names
      are refused, known names map to their Rust type, and any other name is
      taken to be a custom SQL type under the schema's `sql_types` module. */
  function SchemaTypeToRustType(schemaType: string, schemaPath: string): (r: Result<string>)
    ensures r.Err? <==> ToLower(schemaType) in UnsupportedTypeNames
    ensures r.Err? ==> r.error == UnsupportedType(UNSUPPORTED_TYPE_MESSAGE)
    ensures r.Ok? && BuiltinRustType(ToLower(schemaType)).Some? ==> r.value == BuiltinRustType(ToLower(schemaType)).value
    ensures r.Ok? && BuiltinRustType(ToLower(schemaType)).None? ==> r.value == schemaPath + "sql_types::" + schemaType
  {
    var lower := ToLower(schemaType);
    if lower in UnsupportedTypeNames then Err(UnsupportedType(UNSUPPORTED_TYPE_MESSAGE))
    else match BuiltinRustType(lower)
      case Some(ty) => Ok(ty)
      case None => Ok(schemaPath + "sql_types::" + schemaType)
  }

  /** One pair of surrounding double quotes removed, as `parse_diesel_attr_group`
      does with a string literal's text. */
  function StripQuotes(v: string): (r: string)
    ensures |v| >= 2 && v[0] == '"' && v[|v| - 1] == '"' ==> r == v[1..|v| - 1]
    ensures !(|v| >= 2 && v[0] == '"' && v[|v| - 1] == '"') ==> r == v
  {
    if StartsWith(v, "\"") && EndsWith(v, "\"") && |v| >= 2 then v[1..|v| - 1] else v
  }

  /** `parse_diesel_attr_group`: `[name = "value"]` becomes `(name, value)`. */
  function ParseDieselAttrGroup(group: Token): (r: Option<(string, string)>)
    ensures r.Some? <==>
              group.Group? && group.delim == Bracket && |group.stream| >= 3
              && group.stream[0].Ident? && group.stream[1] == Punct('=') && group.stream[2].Literal?
    ensures r.Some? ==> r.value == (group.stream[0].name, StripQuotes(group.stream[2].text))
  {
    if !group.Group? || group.delim != Bracket then None
    else
      var s := group.stream;
      if |s| < 1 || !s[0].Ident? then None
      else if |s| < 2 || !s[1].Punct? then None
      else if s[1].ch != '=' then None
      else if |s| < 3 || !s[2].Literal? then None
      else Some((s[0].name, StripQuotes(s[2].text)))
  }

  // ---------------------------------------------------------------------
  // Column group of a `table!` macro

  /** The slots the column loop of `handle_table_macro` fills in. */
  datatype ColumnSlots = ColumnSlots(
    rustName: Option<string>,
    actualName: Option<string>,
    columnType: Option<string>,
    nullable: bool,
    unsigned: bool,
    hadHashtag: bool,
    columns: seq<ParsedColumn>)
  {
    /** Nothing of a column is pending (a left-over `sql_name` does not count). */
    predicate Idle() {
      rustName.None? && columnType.None? && !nullable && !unsigned
    }
  }

  function EmptySlots(columns: seq<ParsedColumn>): ColumnSlots {
    ColumnSlots(None, None, None, false, false, false, columns)
  }

  /** One token of a column group. */
  function ColumnStep(slots: ColumnSlots, token: Token, schemaPath: string): (r: Result<ColumnSlots>)
    ensures r.Err? ==> token.Literal? || (token == Punct(',') && slots.rustName.Some? && slots.columnType.Some?
                                          && SchemaTypeToRustType(slots.columnType.value, schemaPath).Err?)
    ensures r.Ok? ==> |slots.columns| <= |r.value.columns| <= |slots.columns| + 1
                      && r.value.columns[..|slots.columns|] == slots.columns
  {
    var hadHashtagLast := slots.hadHashtag;
    var s := slots.(hadHashtag := false);
    match token
    case Group(_, _) =>
      if hadHashtagLast then
        match ParseDieselAttrGroup(token)
        case Some(attr) => Ok(if attr.0 == "sql_name" then s.(actualName := Some(attr.1)) else s)
        case None => Ok(s)
      else Ok(s)
    case Ident(n) =>
      if s.rustName.None? then Ok(s.(rustName := Some(n)))
      else if EqIgnoreAsciiCase(n, "Nullable") then Ok(s.(nullable := true))
      else if EqIgnoreAsciiCase(n, "Unsigned") then Ok(s.(unsigned := true))
      else Ok(s.(columnType := Some(n)))
    case Punct(c) =>
      if c == '#' then Ok(s.(hadHashtag := true))
      else if c == '-' || c == '>' then Ok(s)
      else if c == ',' && s.rustName.Some? && s.columnType.Some? then
        var ty :- SchemaTypeToRustType(s.columnType.value, schemaPath);
        var column := ParsedColumn(ty, s.rustName.value, s.nullable, s.unsigned, s.actualName.GetOr(s.rustName.value));
        Ok(EmptySlots(s.columns + [column]))
      else Ok(s)
    case Literal(_) => Err(UnsupportedSchemaFormat("Invalid column definition token in diesel table macro"))
  }

  /** The column loop over a group's tokens, stopping at the first error. */
  function ScanColumns(slots: ColumnSlots, tokens: seq<Token>, schemaPath: string): Result<ColumnSlots>
    decreases |tokens|
  {
    if tokens == [] then Ok(slots)
    else
      var next :- ColumnStep(slots, tokens[0], schemaPath);
      ScanColumns(next, tokens[1..], schemaPath)
  }

  /** The columns of one `{ ... }` group, or the error the loop or the
      partial-column check raises. */
  function ParseColumnGroup(tokens: seq<Token>, schemaPath: string): Result<seq<ParsedColumn>> {
    var slots :- ScanColumns(EmptySlots([]), tokens, schemaPath);
    if !slots.Idle() then Err(UnsupportedSchemaFormat("It seems a column was partially defined"))
    else Ok(slots.columns)
  }

  /** The column loop of `handle_table_macro`, for one brace group. */
  method HandleColumnGroup(tokens: seq<Token>, schemaPath: string) returns (r: Result<seq<ParsedColumn>>)
    ensures r == ParseColumnGroup(tokens, schemaPath)
  {
    var rustName: Option<string> := None;
    var actualName: Option<string> := None;
    var columnType: Option<string> := None;
    var nullable := false;
    var unsigned := false;
    var hadHashtag := false;
    var columns: seq<ParsedColumn> := [];
    var i := 0;
    while i < |tokens|
      invariant 0 <= i <= |tokens|
      invariant ScanColumns(ColumnSlots(rustName, actualName, columnType, nullable, unsigned, hadHashtag, columns), tokens[i..], schemaPath)
                == ScanColumns(EmptySlots([]), tokens, schemaPath)
    {
      ghost var before := ColumnSlots(rustName, actualName, columnType, nullable, unsigned, hadHashtag, columns);
      var token := tokens[i];
      var hadHashtagLast := hadHashtag;
      hadHashtag := false;
      match token {
        case Group(_, _) =>
          if hadHashtagLast {
            var attr := ParseDieselAttrGroup(token);
            if attr.Some? && attr.value.0 == "sql_name" {
              actualName := Some(attr.value.1);
            }
          }
        case Ident(n) =>
          if rustName.None? {
            rustName := Some(n);
          } else if EqIgnoreAsciiCase(n, "Nullable") {
            nullable := true;
          } else if EqIgnoreAsciiCase(n, "Unsigned") {
            unsigned := true;
          } else {
            columnType := Some(n);
          }
        case Punct(c) =>
          if c == '#' {
            hadHashtag := true;
          } else if c == '-' || c == '>' {
          } else if c == ',' && rustName.Some? && columnType.Some? {
            var ty := SchemaTypeToRustType(columnType.value, schemaPath);
            if ty.Err? {
              assert ColumnStep(before, token, schemaPath) == Err(ty.error);
              return Err(ty.error);
            }
            columns := columns + [ParsedColumn(ty.value, rustName.value, nullable, unsigned, actualName.GetOr(rustName.value))];
            rustName := None;
            actualName := None;
            columnType := None;
            unsigned := false;
            nullable := false;
          }
        case Literal(_) =>
          return Err(UnsupportedSchemaFormat("Invalid column definition token in diesel table macro"));
      }
      assert ColumnStep(before, token, schemaPath)
             == Ok(ColumnSlots(rustName, actualName, columnType, nullable, unsigned, hadHashtag, columns));
      assert tokens[i..][1..] == tokens[i + 1..];
      i := i + 1;
    }
    if rustName.Some? || columnType.Some? || nullable || unsigned {
      return Err(UnsupportedSchemaFormat("It seems a column was partially defined"));
    }
    r := Ok(columns);
  }

  // ---------------------------------------------------------------------
  // `table!` macro

  /** The identifiers of a token stream, in order (the primary key group). */
  function IdentNames(tokens: seq<Token>): (r: seq<string>)
    ensures |r| <= |tokens|
  {
    if tokens == [] then []
    else (if tokens[0].Ident? then [tokens[0].name] else []) + IdentNames(tokens[1..])
  }

  /** What the top-level loop of `handle_table_macro` keeps between tokens. */
  datatype TableScan = TableScan(
    skipUntilSemicolon: bool,
    skipSquareBrackets: bool,
    name: Option<string>,
    primaryKeys: seq<string>,
    columns: seq<ParsedColumn>)

  const TableStart: TableScan := TableScan(false, false, None, [], [])

  /** One top-level token of a `table!` macro. */
  function TableStep(s: TableScan, token: Token, schemaPath: string): Result<TableScan> {
    if s.skipUntilSemicolon then
      Ok(if token == Punct(';') then s.(skipUntilSemicolon := false) else s)
    else match token
      case Punct(c) => Ok(if c == '#' then s.(skipSquareBrackets := true) else s)
      case Ident(n) => Ok(if n == "use" then s.(skipUntilSemicolon := true) else s.(name := Some(n)))
      case Group(delim, stream) =>
        if s.skipSquareBrackets then
          Ok(if delim == Bracket then s.(skipSquareBrackets := false) else s)
        else if delim == Parenthesis then
          Ok(s.(primaryKeys := s.primaryKeys + IdentNames(stream)))
        else if delim == Brace then
          var columns :- ParseColumnGroup(stream, schemaPath);
          Ok(s.(columns := s.columns + columns))
        else Err(UnsupportedSchemaFormat("Invalid delimiter in diesel table macro group"))
      case Literal(_) => Err(UnsupportedSchemaFormat("Invalid token tree item in diesel table macro"))
  }

  function ScanTable(s: TableScan, tokens: seq<Token>, schemaPath: string): Result<TableScan>
    decreases |tokens|
  {
    if tokens == [] then Ok(s)
    else
      var next :- TableStep(s, tokens[0], schemaPath);
      ScanTable(next, tokens[1..], schemaPath)
  }

  /** The table a `table!` macro declares; its struct name is the PascalCase
      of its name. */
  function ParseTableMacro(tokens: seq<Token>, schemaPath: string, pascal: string -> string): (r: Result<ParsedTable>)
    ensures r.Ok? ==> r.value.structName == pascal(r.value.name) && r.value.foreignKeys == []
                      && r.value.generatedCode.None?
  {
    var s :- ScanTable(TableStart, tokens, schemaPath);
    if s.name.None? then Err(UnsupportedSchemaFormat("Could not extract table name from schema file"))
    else Ok(ParsedTable(s.name.value, pascal(s.name.value), s.columns, s.primaryKeys, [], None))
  }

  /** The group branch of `handle_table_macro`'s loop: skipped attribute
      groups, the primary key group and the column group. */
  method HandleTableGroup(s: TableScan, delim: Delimiter, stream: seq<Token>, schemaPath: string)
    returns (r: Result<TableScan>)
    requires !s.skipUntilSemicolon
    ensures r == TableStep(s, Group(delim, stream), schemaPath)
  {
    if s.skipSquareBrackets {
      if delim == Bracket {
        return Ok(s.(skipSquareBrackets := false));
      }
      return Ok(s);
    }
    if delim == Parenthesis {
      var primaryKeys := s.primaryKeys;
      var j := 0;
      while j < |stream|
        invariant 0 <= j <= |stream|
        invariant primaryKeys + IdentNames(stream[j..]) == s.primaryKeys + IdentNames(stream)
      {
        assert stream[j..][1..] == stream[j + 1..];
        if stream[j].Ident? {
          primaryKeys := primaryKeys + [stream[j].name];
        }
        j := j + 1;
      }
      assert stream[j..] == [];
      assert primaryKeys == s.primaryKeys + IdentNames(stream);
      return Ok(s.(primaryKeys := primaryKeys));
    } else if delim == Brace {
      var group := HandleColumnGroup(stream, schemaPath);
      if group.Err? {
        return Err(group.error);
      }
      return Ok(s.(columns := s.columns + group.value));
    }
    return Err(UnsupportedSchemaFormat("Invalid delimiter in diesel table macro group"));
  }

  /** `handle_table_macro` */
  method HandleTableMacro(tokens: seq<Token>, config: GenerationConfig, pascal: string -> string)
    returns (r: Result<ParsedTable>)
    ensures r == ParseTableMacro(tokens, config.schemaPath, pascal)
  {
    var scan := TableStart;
    var i := 0;
    while i < |tokens|
      invariant 0 <= i <= |tokens|
      invariant ScanTable(scan, tokens[i..], config.schemaPath) == ScanTable(TableStart, tokens, config.schemaPath)
    {
      ghost var before := scan;
      var token := tokens[i];
      assert tokens[i..][1..] == tokens[i + 1..];
      if scan.skipUntilSemicolon {
        if token == Punct(';') {
          scan := scan.(skipUntilSemicolon := false);
        }
      } else {
        match token {
          case Punct(c) =>
            if c == '#' {
              scan := scan.(skipSquareBrackets := true);
            }
          case Ident(n) =>
            if n == "use" {
              scan := scan.(skipUntilSemicolon := true);
            } else {
              scan := scan.(name := Some(n));
            }
          case Group(delim, stream) =>
            var next := HandleTableGroup(scan, delim, stream, config.schemaPath);
            if next.Err? {
              return Err(next.error);
            }
            scan := next.value;
          case Literal(_) =>
            return Err(UnsupportedSchemaFormat("Invalid token tree item in diesel table macro"));
        }
      }
      assert TableStep(before, token, config.schemaPath) == Ok(scan);
      i := i + 1;
    }
    if scan.name.None? {
      return Err(UnsupportedSchemaFormat("Could not extract table name from schema file"));
    }
    r := Ok(ParsedTable(scan.name.value, pascal(scan.name.value), scan.columns, scan.primaryKeys, [], None));
  }

  // ---------------------------------------------------------------------
  // `joinable!` macro

  function DelimiterText(d: Delimiter): (string, string) {
    match d
    case Parenthesis => ("(", ")")
    case Brace => ("{", "}")
    case Bracket => ("[", "]")
    case NoDelim => ("", "")
  }

  /** The text of a token stream (`TokenStream::to_string`), tokens separated
      by single spaces. */
  function StreamText(tokens: seq<Token>): string
    decreases tokens
  {
    if tokens == [] then ""
    else
      var first :=
        match tokens[0]
        case Ident(n) => n
        case Punct(c) => [c]
        case Literal(text) => text
        case Group(d, inner) => DelimiterText(d).0 + StreamText(inner) + DelimiterText(d).1;
      if |tokens| == 1 then first else first + " " + StreamText(tokens[1..])
  }

  /** What the loop of `handle_joinable_macro` keeps between tokens. */
  datatype JoinScan = JoinScan(table1: Option<string>, table2: Option<string>, column: Option<string>)

  function JoinStep(s: JoinScan, token: Token): Result<JoinScan> {
    match token
    case Ident(n) =>
      Ok(if s.table1.None? then s.(table1 := Some(n))
         else if s.table2.None? then s.(table2 := Some(n))
         else s)
    case Group(_, stream) =>
      if s.table1.None? || s.table2.None? then Err(UnsupportedSchemaFormat("encountered join column group too early"))
      else Ok(s.(column := Some(StreamText(stream))))
    case _ => Ok(s)
  }

  function ScanJoin(s: JoinScan, tokens: seq<Token>): Result<JoinScan>
    decreases |tokens|
  {
    if tokens == [] then Ok(s)
    else
      var next :- JoinStep(s, tokens[0]);
      ScanJoin(next, tokens[1..])
  }

  /** The join a `joinable!` macro declares; a missing part is reported in
      the order first table, second table, column. */
  function ParseJoinMacro(tokens: seq<Token>): Result<ParsedJoin> {
    var s :- ScanJoin(JoinScan(None, None, None), tokens);
    if s.table1.None? then Err(UnsupportedSchemaFormat("could not determine first join table name"))
    else if s.table2.None? then Err(UnsupportedSchemaFormat("could not determine second join table name"))
    else if s.column.None? then Err(UnsupportedSchemaFormat("could not determine join column name"))
    else Ok(ParsedJoin(s.table1.value, s.table2.value, s.column.value))
  }

  /** `handle_joinable_macro` */
  method HandleJoinableMacro(tokens: seq<Token>) returns (r: Result<ParsedJoin>)
    ensures r == ParseJoinMacro(tokens)
  {
    var table1: Option<string> := None;
    var table2: Option<string> := None;
    var column: Option<string> := None;
    var i := 0;
    while i < |tokens|
      invariant 0 <= i <= |tokens|
      invariant ScanJoin(JoinScan(table1, table2, column), tokens[i..]) == ScanJoin(JoinScan(None, None, None), tokens)
    {
      ghost var before := JoinScan(table1, table2, column);
      assert tokens[i..][1..] == tokens[i + 1..];
      match tokens[i] {
        case Ident(n) =>
          if table1.None? {
            table1 := Some(n);
          } else if table2.None? {
            table2 := Some(n);
          }
        case Group(_, stream) =>
          if table1.None? || table2.None? {
            return Err(UnsupportedSchemaFormat("encountered join column group too early"));
          }
          column := Some(StreamText(stream));
        case _ =>
      }
      assert JoinStep(before, tokens[i]) == Ok(JoinScan(table1, table2, column));
      i := i + 1;
    }
    if table1.None? {
      return Err(UnsupportedSchemaFormat("could not determine first join table name"));
    }
    if table2.None? {
      return Err(UnsupportedSchemaFormat("could not determine second join table name"));
    }
    if column.None? {
      return Err(UnsupportedSchemaFormat("could not determine join column name"));
    }
    r := Ok(ParsedJoin(table1.value, table2.value, column.value));
  }

  // ---------------------------------------------------------------------
  // The schema file

  /** A top-level item of the schema file: a macro invocation with its path
      segments and tokens, or anything else. */
  datatype Item = MacroItem(path: seq<string>, tokens: seq<Token>) | OtherItem

  /** The foreign key a join adds to the first table already collected under
      its first table's name; no other table changes. */
  function AttachJoin(tables: seq<ParsedTable>, join: ParsedJoin): (r: seq<ParsedTable>)
    ensures |r| == |tables|
  {
    if tables == [] then []
    else if join.table1 == tables[0].name then
      [tables[0].(foreignKeys := tables[0].foreignKeys + [(join.table2, join.table1Columns)])] + tables[1..]
    else [tables[0]] + AttachJoin(tables[1..], join)
  }

  /** One item of the first loop of `parse_and_generate_code`. */
  function CollectStep(tables: seq<ParsedTable>, item: Item, config: GenerationConfig, pascal: string -> string)
    : Result<seq<ParsedTable>>
  {
    match item
    case OtherItem => Ok(tables)
    case MacroItem(path, tokens) =>
      if path == [] then Err(Other("could not read identifier for macro"))
      else if path[|path| - 1] == "table" then
        var table :- ParseTableMacro(tokens, config.schemaPath, pascal);
        Ok(if !config.Table(table.name).GetIgnore() then tables + [table] else tables)
      else if path[|path| - 1] == "joinable" then
        var join :- ParseJoinMacro(tokens);
        Ok(AttachJoin(tables, join))
      else Ok(tables)
  }

  function CollectTables(tables: seq<ParsedTable>, items: seq<Item>, config: GenerationConfig, pascal: string -> string)
    : Result<seq<ParsedTable>>
    decreases |items|
  {
    if items == [] then Ok(tables)
    else
      var next :- CollectStep(tables, items[0], config, pascal);
      CollectTables(next, items[1..], config, pascal)
  }

  /** The second loop: each table in turn gets its generated code; the first
      failure ends the run. */
  function GenerateFrom(done: seq<ParsedTable>, rest: seq<ParsedTable>, config: GenerationConfig, pascal: string -> string)
    : Result<seq<ParsedTable>>
    decreases |rest|
  {
    if rest == [] then Ok(done)
    else
      var code :- Code.TableCodeFor(rest[0], config, pascal);
      GenerateFrom(done + [rest[0].(generatedCode := Some(code))], rest[1..], config, pascal)
  }

  /** `parse_and_generate_code`, after the file has been split into items. */
  function ParseAndGenerate(items: seq<Item>, config: GenerationConfig, pascal: string -> string): Result<seq<ParsedTable>> {
    var tables :- CollectTables([], items, config, pascal);
    GenerateFrom([], tables, config, pascal)
  }

  /** The foreign-key loop of `parse_and_generate_code`: the first table
      named like the join's first table gets the key, then the loop stops. */
  method AddForeignKey(tables: seq<ParsedTable>, join: ParsedJoin) returns (r: seq<ParsedTable>)
    ensures r == AttachJoin(tables, join)
  {
    r := tables;
    var k := 0;
    while k < |r|
      invariant 0 <= k <= |r|
      invariant r == tables
      invariant AttachJoin(tables, join) == tables[..k] + AttachJoin(tables[k..], join)
    {
      if join.table1 == r[k].name {
        AttachHere(tables, k, join);
        r := r[k := r[k].(foreignKeys := r[k].foreignKeys + [(join.table2, join.table1Columns)])];
        return;
      }
      AttachSkip(tables, k, join);
      k := k + 1;
    }
    assert tables[..k] == tables && tables[k..] == [];
  }

  lemma AttachHere(tables: seq<ParsedTable>, k: int, join: ParsedJoin)
    requires 0 <= k < |tables| && join.table1 == tables[k].name
    ensures tables[..k] + AttachJoin(tables[k..], join)
            == tables[k := tables[k].(foreignKeys := tables[k].foreignKeys + [(join.table2, join.table1Columns)])]
  {
    assert tables[k..][1..] == tables[k + 1..];
  }

  lemma AttachSkip(tables: seq<ParsedTable>, k: int, join: ParsedJoin)
    requires 0 <= k < |tables| && join.table1 != tables[k].name
    ensures tables[..k] + AttachJoin(tables[k..], join) == tables[..k + 1] + AttachJoin(tables[k + 1..], join)
  {
    assert tables[k..][1..] == tables[k + 1..];
    assert tables[..k + 1] == tables[..k] + [tables[k]];
  }

  /** The generation loop of `parse_and_generate_code`: each table's code is
      stored in place. */
  method GenerateAll(collected: seq<ParsedTable>, config: GenerationConfig, pascal: string -> string)
    returns (r: Result<seq<ParsedTable>>)
    ensures r == GenerateFrom([], collected, config, pascal)
  {
    var tables := collected;
    var n := 0;
    while n < |collected|
      invariant 0 <= n <= |collected| == |tables|
      invariant tables[n..] == collected[n..]
      invariant GenerateFrom(tables[..n], collected[n..], config, pascal) == GenerateFrom([], collected, config, pascal)
    {
      var code := Code.GenerateForTable(tables[n], config, pascal);
      GenerateFromStep(tables[..n], collected[n..], config, pascal);
      if code.Err? {
        return Err(code.error);
      }
      StoreCode(tables, n, Some(code.value));
      tables := tables[n := tables[n].(generatedCode := Some(code.value))];
      n := n + 1;
    }
    assert tables[..n] == tables;
    r := Ok(tables);
  }

  lemma GenerateFromStep(done: seq<ParsedTable>, rest: seq<ParsedTable>, config: GenerationConfig, pascal: string -> string)
    requires rest != []
    ensures var code := Code.TableCodeFor(rest[0], config, pascal);
            GenerateFrom(done, rest, config, pascal)
            == if code.Err? then Err(code.error)
               else GenerateFrom(done + [rest[0].(generatedCode := Some(code.value))], rest[1..], config, pascal)
  {
  }

  lemma StoreCode(tables: seq<ParsedTable>, n: int, code: Option<TableCode>)
    requires 0 <= n < |tables|
    ensures tables[n := tables[n].(generatedCode := code)][..n + 1] == tables[..n] + [tables[n].(generatedCode := code)]
    ensures tables[n := tables[n].(generatedCode := code)][n + 1..] == tables[n + 1..]
  {
  }

  method ParseAndGenerateCode(items: seq<Item>, config: GenerationConfig, pascal: string -> string)
    returns (r: Result<seq<ParsedTable>>)
    ensures r == ParseAndGenerate(items, config, pascal)
  {
    var tables: seq<ParsedTable> := [];
    var i := 0;
    while i < |items|
      invariant 0 <= i <= |items|
      invariant CollectTables(tables, items[i..], config, pascal) == CollectTables([], items, config, pascal)
    {
      ghost var before := tables;
      assert items[i..][1..] == items[i + 1..];
      match items[i] {
        case OtherItem =>
        case MacroItem(path, tokens) =>
          if path == [] {
            return Err(Other("could not read identifier for macro"));
          }
          var macroIdentifier := path[|path| - 1];
          if macroIdentifier == "table" {
            var parsedTable := HandleTableMacro(tokens, config, pascal);
            if parsedTable.Err? {
              return Err(parsedTable.error);
            }
            if !config.Table(parsedTable.value.name).GetIgnore() {
              tables := tables + [parsedTable.value];
            }
          } else if macroIdentifier == "joinable" {
            var parsedJoin := HandleJoinableMacro(tokens);
            if parsedJoin.Err? {
              return Err(parsedJoin.error);
            }
            tables := AddForeignKey(tables, parsedJoin.value);
          }
      }
      assert CollectStep(before, items[i], config, pascal) == Ok(tables);
      i := i + 1;
    }
    r := GenerateAll(tables, config, pascal);
  }
}
