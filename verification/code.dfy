/** Which fields, derives and functions are generated for a table
    (crates/lib/src/code.rs). */
module Code {
  import opened Wrappers
  import opened Errors
  import opened Strings
  import opened Options
  import opened Schema
  import opened Structs

  predicate IsPrimaryKey(table: ParsedTable, c: ParsedColumn) {
    c.name in table.primaryKeyColumns
  }

  predicate IsAutogenerated(opts: TableOptions, c: ParsedColumn) {
    c.name in opts.GetAutogeneratedColumns()
  }

  /** The filter of `Struct::fields`: Read keeps every column, Update drops
      the primary key columns, Create drops the autogenerated ones. */
  predicate Keeps(ty: StructType, table: ParsedTable, opts: TableOptions, c: ParsedColumn) {
    match ty
    case Read => true
    case Update => !IsPrimaryKey(table, c)
    case Create => !IsAutogenerated(opts, c)
  }

  /** The type of a column before the Update variant's optional wrapping. */
  function BaseType(c: ParsedColumn): string {
    if c.isNullable then "Option<" + c.ty + ">"
    else if c.isUnsigned then ReplaceChar(c.ty, 'i', 'u')
    else c.ty
  }

  /** The map of `Struct::fields`. */
  function FieldFor(ty: StructType, table: ParsedTable, opts: TableOptions, c: ParsedColumn): StructField {
    StructField(c.name, BaseType(c), ty == Update && (!IsPrimaryKey(table, c) || IsAutogenerated(opts, c)))
  }

  function FieldsOf(ty: StructType, table: ParsedTable, opts: TableOptions, cols: seq<ParsedColumn>): seq<StructField> {
    if cols == [] then []
    else (if Keeps(ty, table, opts, cols[0]) then [FieldFor(ty, table, opts, cols[0])] else [])
         + FieldsOf(ty, table, opts, cols[1..])
  }

  /** `Struct::fields` */
  function Fields(ty: StructType, table: ParsedTable, opts: TableOptions): seq<StructField> {
    FieldsOf(ty, table, opts, table.columns)
  }

  predicate AllArePrimaryKeys(fields: seq<StructField>, pkNames: seq<string>) {
    forall i :: 0 <= i < |fields| ==> fields[i].name in pkNames
  }

  function When(b: bool, d: Derive): seq<Derive> {
    if b then [d] else []
  }

  /** Whether a trait belongs in the derive list, given the conditions
      `attr_derive` tests: Debug and Clone always, the others each on its
      own condition. */
  predicate Wanted(d: Derive, serde: bool, queryable: bool, insertable: bool, selectable: bool, related: bool,
                   changeset: bool) {
    match d
    case Debug | Clone => true
    case Serialize | Deserialize => serde
    case Queryable => queryable
    case Insertable => insertable
    case Selectable => selectable
    case Identifiable | Associations => related
    case AsChangeset => changeset
  }

  /** The derive list for a given choice of optional traits, in the
      order `attr_derive` pushes them. */
  function Derives(serde: bool, queryable: bool, insertable: bool, selectable: bool, related: bool, changeset: bool): (r: seq<Derive>)
    ensures |r| >= 2 && r[..2] == [Debug, Clone]
  {
    var r := [Debug, Clone] + When(serde, Serialize) + When(serde, Deserialize) + When(queryable, Queryable)
             + When(insertable, Insertable) + When(selectable, Selectable) + When(related, Identifiable)
             + When(related, Associations) + When(changeset, AsChangeset);
    assert r[..2] == [Debug, Clone];
    r
  }

  lemma InWhen(x: Derive, b: bool, d: Derive)
    ensures x in When(b, d) <==> b && x == d
  {
  }

  /** A trait is in the derive list exactly when its condition holds. */
  lemma DerivesHas(d: Derive, serde: bool, queryable: bool, insertable: bool, selectable: bool, related: bool,
                   changeset: bool)
    ensures d in Derives(serde, queryable, insertable, selectable, related, changeset)
            <==> Wanted(d, serde, queryable, insertable, selectable, related, changeset)
  {
    InWhen(d, serde, Serialize);
    InWhen(d, serde, Deserialize);
    InWhen(d, queryable, Queryable);
    InWhen(d, insertable, Insertable);
    InWhen(d, selectable, Selectable);
    InWhen(d, related, Identifiable);
    InWhen(d, related, Associations);
    InWhen(d, changeset, AsChangeset);
    assert d in [Debug, Clone] <==> d == Debug || d == Clone;
  }

  /** The pushes of `attr_derive`, one trait at a time. */
  method PushDerives(serde: bool, queryable: bool, insertable: bool, selectable: bool, related: bool, changeset: bool)
    returns (derives: seq<Derive>)
    ensures derives == Derives(serde, queryable, insertable, selectable, related, changeset)
  {
    derives := [Debug, Clone];
    ghost var before := derives;
    if serde {
      derives := derives + [Serialize];
      derives := derives + [Deserialize];
    }
    assert derives == before + When(serde, Serialize) + When(serde, Deserialize);
    before := derives;
    if queryable {
      derives := derives + [Queryable];
    }
    assert derives == before + When(queryable, Queryable);
    before := derives;
    if insertable {
      derives := derives + [Insertable];
    }
    assert derives == before + When(insertable, Insertable);
    before := derives;
    if selectable {
      derives := derives + [Selectable];
    }
    assert derives == before + When(selectable, Selectable);
    before := derives;
    if related {
      derives := derives + [Identifiable];
    }
    assert derives == before + When(related, Identifiable);
    before := derives;
    if related {
      derives := derives + [Associations];
    }
    assert derives == before + When(related, Associations);
    before := derives;
    if changeset {
      derives := derives + [AsChangeset];
    }
    assert derives == before + When(changeset, AsChangeset);
  }

  /** Whether `attr_derive` adds `AsChangeset`: some field is not part of
      the primary key. */
  predicate HasChangeset(ty: StructType, table: ParsedTable, opts: TableOptions) {
    !AllArePrimaryKeys(Fields(ty, table, opts), table.PrimaryKeyColumnNames())
  }

  /** The derive list `Struct::attr_derive` builds for one struct. */
  function DeriveList(ty: StructType, table: ParsedTable, opts: TableOptions, config: GenerationConfig): (r: seq<Derive>)
    ensures |r| >= 2 && r[..2] == [Debug, Clone]
    ensures forall d :: d in r <==>
              Wanted(d, config.defaultTableOptions.GetSerde(), !opts.GetOnlyNecessaryDerives() || ty == Read,
                     !opts.GetOnlyNecessaryDerives() || ty == Create, ty == Read,
                     ty == Read && table.foreignKeys != [], HasChangeset(ty, table, opts))
  {
    var serde := config.defaultTableOptions.GetSerde();
    var queryable := !opts.GetOnlyNecessaryDerives() || ty == Read;
    var insertable := !opts.GetOnlyNecessaryDerives() || ty == Create;
    var related := ty == Read && table.foreignKeys != [];
    var changeset := HasChangeset(ty, table, opts);
    var r := Derives(serde, queryable, insertable, ty == Read, related, changeset);
    forall d | true
      ensures d in r <==> Wanted(d, serde, queryable, insertable, ty == Read, related, changeset)
    {
      DerivesHas(d, serde, queryable, insertable, ty == Read, related, changeset);
    }
    r
  }

  function BelongsTo(foreignKeys: seq<(string, string)>, pascal: string -> string): (r: seq<(string, string)>)
    ensures |r| == |foreignKeys|
    ensures forall i :: 0 <= i < |r| ==> r[i] == (pascal(foreignKeys[i].0), foreignKeys[i].1)
  {
    seq(|foreignKeys|, i requires 0 <= i < |foreignKeys| => (pascal(foreignKeys[i].0), foreignKeys[i].1))
  }

  /** The `#[diesel(..)]` attribute of a struct variant: only the Read struct
      names the primary key and the `belongs_to` relations. */
  function DieselAttrFor(ty: StructType, table: ParsedTable, pascal: string -> string): (r: DieselAttr)
    ensures r.tableName == table.name
    ensures r.primaryKey.Some? <==> ty == Read
    ensures r.primaryKey.Some? ==> r.primaryKey.value == table.PrimaryKeyColumnNames()
    ensures |r.belongsTo| == if ty == Read then |table.foreignKeys| else 0
    ensures ty == Read ==> r.belongsTo == BelongsTo(table.foreignKeys, pascal)
  {
    DieselAttr(
      table.name,
      if ty == Read then Some(table.PrimaryKeyColumnNames()) else None,
      if ty == Read then BelongsTo(table.foreignKeys, pascal) else [])
  }

  /** What `Struct::render` stores for a struct variant of a table. */
  function RenderedStructFor(ty: StructType, table: ParsedTable, opts: TableOptions, config: GenerationConfig, pascal: string -> string): RenderedStruct {
    var fields := Fields(ty, table, opts);
    if fields == [] then NoCode
    else StructCode(opts.GetTsync(), DeriveList(ty, table, opts, config), DieselAttrFor(ty, table, pascal),
                    ty.Format(table.structName), fields)
  }

  /** One generated struct; `render` fills in its code and whether it has
      fields. */
  class Struct {
    const identifier: string
    const ty: StructType
    const table: ParsedTable
    const opts: TableOptions
    const config: GenerationConfig
    const pascal: string -> string
    var renderedCode: Option<RenderedStruct>
    var hasFields: Option<bool>

    /** `Struct::new`, which renders the struct right away. */
    constructor (ty: StructType, table: ParsedTable, config: GenerationConfig, pascal: string -> string)
      ensures this.ty == ty && this.table == table && this.config == config && this.pascal == pascal
      ensures identifier == ty.Format(table.structName) && opts == config.Table(table.name)
      ensures hasFields == Some(Fields(ty, table, opts) != [])
      ensures renderedCode == Some(RenderedStructFor(ty, table, opts, config, pascal))
    {
      identifier := ty.Format(table.structName);
      opts := config.Table(table.name);
      this.table := table;
      this.ty := ty;
      this.config := config;
      this.pascal := pascal;
      renderedCode := None;
      hasFields := None;
      new;
      Render();
    }

    /** `Struct::code`: the rendered code, empty when not rendered. */
    function Code(): RenderedStruct
      reads this
    {
      renderedCode.GetOr(NoCode)
    }

    /** `Struct::has_fields`, which the source unwraps. */
    function HasFields(): bool
      reads this
      requires hasFields.Some?
    {
      hasFields.value
    }

    method AttrDerive() returns (derives: seq<Derive>)
      ensures derives == DeriveList(ty, table, opts, config)
    {
      var ond := opts.GetOnlyNecessaryDerives();
      var changeset := HasChangeset(ty, table, opts);
      derives := PushDerives(config.defaultTableOptions.GetSerde(), !ond || (ond && ty == Read),
                             !ond || (ond && ty == Create), ty == Read, ty == Read && table.foreignKeys != [], changeset);
    }

    method Render()
      modifies this`renderedCode, this`hasFields
      ensures hasFields == Some(Fields(ty, table, opts) != [])
      ensures renderedCode == Some(RenderedStructFor(ty, table, opts, config, pascal))
    {
      var derives := AttrDerive();
      var fields := Fields(ty, table, opts);
      if fields == [] {
        hasFields := Some(false);
        renderedCode := Some(NoCode);
      } else {
        hasFields := Some(true);
        renderedCode := Some(StructCode(opts.GetTsync(), derives, DieselAttrFor(ty, table, pascal),
                                        ty.Format(table.structName), fields));
      }
    }
  }

  /** The first column with the given Rust name. */
  function FindColumn(cols: seq<ParsedColumn>, name: string): (r: Option<ParsedColumn>)
    ensures r.None? <==> forall k :: 0 <= k < |cols| ==> cols[k].name != name
    ensures r.Some? ==> r.value.name == name
  {
    if cols == [] then None
    else if cols[0].name == name then Some(cols[0])
    else FindColumn(cols[1..], name)
  }

  /** The column found is the first one with the name. */
  lemma {:induction false} FindColumnFirst(cols: seq<ParsedColumn>, name: string)
    requires FindColumn(cols, name).Some?
    ensures exists k :: 0 <= k < |cols| && cols[k] == FindColumn(cols, name).value
                        && forall j :: 0 <= j < k ==> cols[j].name != name
  {
    if cols[0].name != name {
      FindColumnFirst(cols[1..], name);
      var k :| 0 <= k < |cols[1..]| && cols[1..][k] == FindColumn(cols, name).value
               && forall j :: 0 <= j < k ==> cols[1..][j].name != name;
      assert cols[k + 1] == FindColumn(cols, name).value;
      forall j | 0 <= j < k + 1
        ensures cols[j].name != name
      {
        if j > 0 {
          assert cols[j] == cols[1..][j - 1];
        }
      }
    } else {
      assert cols[0] == FindColumn(cols, name).value;
    }
  }

  /** (name, type) of the column each primary key names, in key order; a key
      that names no column is the source's `expect` panic. */
  function PrimaryKeyNameAndType(cols: seq<ParsedColumn>, pks: seq<string>): (r: Result<seq<(string, string)>>)
    ensures r.Err? ==> r.error == Panic("Primary key column doesn't exist in table")
  {
    if pks == [] then Ok([])
    else match FindColumn(cols, pks[0])
      case None => Err(Panic("Primary key column doesn't exist in table"))
      case Some(c) =>
        var rest :- PrimaryKeyNameAndType(cols, pks[1..]);
        Ok([(c.name, c.ty)] + rest)
  }

  /** The pairs exist exactly when every key names a column, and then there
      is one per key, in key order, with that column's type. */
  lemma {:induction false} PrimaryKeyPairs(cols: seq<ParsedColumn>, pks: seq<string>)
    ensures var r := PrimaryKeyNameAndType(cols, pks);
            && (r.Ok? <==> forall i :: 0 <= i < |pks| ==> FindColumn(cols, pks[i]).Some?)
            && (r.Ok? ==> |r.value| == |pks|
                          && forall i :: 0 <= i < |pks| ==> r.value[i] == (pks[i], FindColumn(cols, pks[i]).value.ty))
  {
    if pks != [] {
      PrimaryKeyPairs(cols, pks[1..]);
      var r := PrimaryKeyNameAndType(cols, pks);
      var rest := PrimaryKeyNameAndType(cols, pks[1..]);
      forall i | 1 <= i < |pks|
        ensures FindColumn(cols, pks[i]) == FindColumn(cols, pks[1..][i - 1])
      {
        assert pks[1..][i - 1] == pks[i];
      }
      if r.Ok? {
        var c := FindColumn(cols, pks[0]).value;
        assert c.name == pks[0];
        assert r.value == [(c.name, c.ty)] + rest.value;
        forall i | 1 <= i < |pks|
          ensures r.value[i] == (pks[i], FindColumn(cols, pks[i]).value.ty)
        {
          assert r.value[i] == rest.value[i - 1];
        }
      } else if FindColumn(cols, pks[0]).Some? {
        assert rest.Err?;
        var i :| 0 <= i < |pks[1..]| && FindColumn(cols, pks[1..][i]).None?;
        assert FindColumn(cols, pks[i + 1]).None?;
      }
    }
  }

  /** One `param_<key>: <type>` declaration per primary key. */
  function ParamDecls(pairs: seq<(string, string)>): (r: seq<string>)
    ensures |r| == |pairs|
    ensures forall i :: 0 <= i < |r| ==> r[i] == "param_" + pairs[i].0 + ": " + pairs[i].1
  {
    if pairs == [] then [] else ["param_" + pairs[0].0 + ": " + pairs[0].1] + ParamDecls(pairs[1..])
  }

  /** One `filter(<key>.eq(param_<key>))` call per primary key. */
  function ParamFilters(pairs: seq<(string, string)>): (r: seq<string>)
    ensures |r| == |pairs|
    ensures forall i :: 0 <= i < |r| ==> r[i] == "filter(" + pairs[i].0 + ".eq(param_" + pairs[i].0 + "))"
  {
    if pairs == [] then [] else ["filter(" + pairs[0].0 + ".eq(param_" + pairs[0].0 + "))"] + ParamFilters(pairs[1..])
  }

  function ItemIdParams(pairs: seq<(string, string)>): string {
    Join(ParamDecls(pairs), ", ")
  }

  function ItemIdFilters(pairs: seq<(string, string)>): string {
    Join(ParamFilters(pairs), ".")
  }

  /** The type of the column a key names (empty when no column has the name). */
  function KeyType(cols: seq<ParsedColumn>, key: string): string {
    match FindColumn(cols, key)
    case Some(c) => c.ty
    case None => ""
  }

  /** With every key found, the parameter list is one `param_<key>: <type>`
      per primary key, in key order, with the type of the key's column,
      joined by `, `; the filter chain is one `filter(<key>.eq(param_<key>))`
      per key, joined by `.`. */
  lemma KeyParamsAndFilters(cols: seq<ParsedColumn>, pks: seq<string>)
    requires PrimaryKeyNameAndType(cols, pks).Ok?
    ensures var pairs := PrimaryKeyNameAndType(cols, pks).value;
            && ItemIdParams(pairs)
               == Join(seq(|pks|, i requires 0 <= i < |pks| =>
                         "param_" + pks[i] + ": " + KeyType(cols, pks[i])), ", ")
            && ItemIdFilters(pairs)
               == Join(seq(|pks|, i requires 0 <= i < |pks| => "filter(" + pks[i] + ".eq(param_" + pks[i] + "))"), ".")
  {
    PrimaryKeyPairs(cols, pks);
    var pairs := PrimaryKeyNameAndType(cols, pks).value;
    assert forall i :: 0 <= i < |pks| ==> FindColumn(cols, pks[i]).Some?;
    assert ParamDecls(pairs) == seq(|pks|, i requires 0 <= i < |pks| => "param_" + pks[i] + ": " + KeyType(cols, pks[i]));
    assert ParamFilters(pairs) == seq(|pks|, i requires 0 <= i < |pks| => "filter(" + pks[i] + ".eq(param_" + pks[i] + "))");
  }

  /** What `build_table_fns` emits, given whether the Create and Update
      structs have fields. */
  function TableFnsFor(table: ParsedTable, config: GenerationConfig, createHasFields: bool, updateHasFields: bool): Result<TableFns> {
    var pairs :- PrimaryKeyNameAndType(table.columns, table.primaryKeyColumns);
    Ok(TableFns(
      ItemIdParams(pairs),
      ItemIdFilters(pairs),
      [PaginationResultStruct(config.defaultTableOptions.GetSerde()), ImplOpen(table.structName),
       CreateFn(createHasFields), ReadFn, PaginateFn]
      + (if updateHasFields then [UpdateFn] else [])
      + [DeleteFn, ImplClose]))
  }

  method BuildTableFns(table: ParsedTable, config: GenerationConfig, createStruct: Struct, updateStruct: Struct)
    returns (r: Result<TableFns>)
    requires createStruct.hasFields.Some? && updateStruct.hasFields.Some?
    ensures r == TableFnsFor(table, config, createStruct.HasFields(), updateStruct.HasFields())
  {
    var pairs := PrimaryKeyNameAndType(table.columns, table.primaryKeyColumns);
    if pairs.Err? {
      return Err(pairs.error);
    }
    var buffer: seq<FnBlock> := [];
    buffer := buffer + [PaginationResultStruct(config.defaultTableOptions.GetSerde())];
    buffer := buffer + [ImplOpen(table.structName)];
    buffer := buffer + [CreateFn(createStruct.HasFields())];
    buffer := buffer + [ReadFn];
    buffer := buffer + [PaginateFn];
    if updateStruct.HasFields() {
      buffer := buffer + [UpdateFn];
    }
    buffer := buffer + [DeleteFn];
    buffer := buffer + [ImplClose];
    assert buffer == [PaginationResultStruct(config.defaultTableOptions.GetSerde()), ImplOpen(table.structName),
                      CreateFn(createStruct.HasFields()), ReadFn, PaginateFn]
                     + (if updateStruct.HasFields() then [UpdateFn] else []) + [DeleteFn, ImplClose];
    r := Ok(TableFns(ItemIdParams(pairs.value), ItemIdFilters(pairs.value), buffer));
  }

  /** `generate_for_table`, structurally. */
  function TableCodeFor(table: ParsedTable, config: GenerationConfig, pascal: string -> string): Result<TableCode> {
    var opts := config.Table(table.name);
    var fns :- TableFnsFor(table, config, Fields(Create, table, opts) != [], Fields(Update, table, opts) != []);
    Ok(TableCode(
      RenderedStructFor(Read, table, opts, config, pascal),
      RenderedStructFor(Create, table, opts, config, pascal),
      RenderedStructFor(Update, table, opts, config, pascal),
      fns))
  }

  method GenerateForTable(table: ParsedTable, config: GenerationConfig, pascal: string -> string)
    returns (r: Result<TableCode>)
    ensures r == TableCodeFor(table, config, pascal)
  {
    var readStruct := new Struct(Read, table, config, pascal);
    var updateStruct := new Struct(Update, table, config, pascal);
    var createStruct := new Struct(Create, table, config, pascal);
    var functions := BuildTableFns(table, config, createStruct, updateStruct);
    if functions.Err? {
      return Err(functions.error);
    }
    r := Ok(TableCode(readStruct.Code(), createStruct.Code(), updateStruct.Code(), functions.value));
  }
}
