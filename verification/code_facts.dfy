/** Properties of the generated structs and functions. */
module CodeFacts {
  import opened Wrappers
  import opened Errors
  import opened Strings
  import opened Options
  import opened Schema
  import opened Structs
  import opened Code
  import OptionsFacts

  /** The three structs of a table never share an identifier. */
  lemma StructIdentifiersDistinct(name: string)
    ensures Read.Format(name) != Update.Format(name)
    ensures Read.Format(name) != Create.Format(name)
    ensures Update.Format(name) != Create.Format(name)
  {
    assert Update.Format(name)[0] == 'U';
    assert Create.Format(name)[0] == 'C';
  }

  /** Fields are produced column by column, in declaration order. */
  lemma {:induction false} FieldsOfAppend(ty: StructType, table: ParsedTable, opts: TableOptions, a: seq<ParsedColumn>, b: seq<ParsedColumn>)
    ensures FieldsOf(ty, table, opts, a + b) == FieldsOf(ty, table, opts, a) + FieldsOf(ty, table, opts, b)
  {
    if a == [] {
      assert a + b == b;
    } else {
      assert (a + b)[1..] == a[1..] + b;
      FieldsOfAppend(ty, table, opts, a[1..], b);
    }
  }

  /** A field is generated exactly for each column the variant keeps. */
  lemma {:induction false} FieldsOfMembership(ty: StructType, table: ParsedTable, opts: TableOptions, cols: seq<ParsedColumn>, f: StructField)
    ensures f in FieldsOf(ty, table, opts, cols)
            <==> exists c :: c in cols && Keeps(ty, table, opts, c) && f == FieldFor(ty, table, opts, c)
  {
    if cols != [] {
      FieldsOfMembership(ty, table, opts, cols[1..], f);
      assert forall c :: c in cols <==> c == cols[0] || c in cols[1..];
    }
  }

  /** The Read struct has one field per column, in column order. */
  lemma {:induction false} ReadKeepsEveryColumn(table: ParsedTable, opts: TableOptions, cols: seq<ParsedColumn>)
    ensures |FieldsOf(Read, table, opts, cols)| == |cols|
    ensures forall i :: 0 <= i < |cols| ==>
              FieldsOf(Read, table, opts, cols)[i] == StructField(cols[i].name, BaseType(cols[i]), false)
  {
    if cols != [] {
      ReadKeepsEveryColumn(table, opts, cols[1..]);
    }
  }

  /** Every field of the Update struct is optional; no field of the Read or
      Create struct is. */
  lemma {:induction false} OptionalityOfFields(ty: StructType, table: ParsedTable, opts: TableOptions, cols: seq<ParsedColumn>)
    ensures forall f :: f in FieldsOf(ty, table, opts, cols) ==> (f.isOptional <==> ty == Update)
  {
    if cols != [] {
      OptionalityOfFields(ty, table, opts, cols[1..]);
    }
  }

  /** The Update struct has a field exactly for the columns outside the
      primary key; the Create struct exactly for the columns that are not
      autogenerated. */
  lemma UpdateAndCreateFieldNames(table: ParsedTable, opts: TableOptions, name: string)
    ensures (exists f :: f in Fields(Update, table, opts) && f.name == name)
            <==> exists c :: c in table.columns && c.name == name && c.name !in table.primaryKeyColumns
    ensures (exists f :: f in Fields(Create, table, opts) && f.name == name)
            <==> exists c :: c in table.columns && c.name == name && c.name !in opts.GetAutogeneratedColumns()
  {
    forall ty: StructType, f: StructField
      ensures f in FieldsOf(ty, table, opts, table.columns)
              <==> exists c :: c in table.columns && Keeps(ty, table, opts, c) && f == FieldFor(ty, table, opts, c)
    {
      FieldsOfMembership(ty, table, opts, table.columns, f);
    }
    forall c | c in table.columns && c.name == name && c.name !in table.primaryKeyColumns
      ensures FieldFor(Update, table, opts, c) in Fields(Update, table, opts)
    {
    }
    forall c | c in table.columns && c.name == name && c.name !in opts.GetAutogeneratedColumns()
      ensures FieldFor(Create, table, opts, c) in Fields(Create, table, opts)
    {
    }
  }

  /** An Update field for a nullable column is doubly optional: absent means
      "leave unchanged", `Some(None)` means "set to NULL". */
  lemma NullableUpdateFieldIsDoublyOptional(table: ParsedTable, opts: TableOptions, c: ParsedColumn)
    requires c.isNullable && !IsPrimaryKey(table, c)
    ensures FieldFor(Update, table, opts, c).FieldType() == "Option<Option<" + c.ty + ">>"
  {
  }

  /** An unsigned, non-nullable column turns every `i` of its type into `u`. */
  lemma UnsignedColumnType(c: ParsedColumn)
    requires c.isUnsigned && !c.isNullable
    ensures |BaseType(c)| == |c.ty|
    ensures forall k :: 0 <= k < |c.ty| ==> BaseType(c)[k] == (if c.ty[k] == 'i' then 'u' else c.ty[k])
  {
  }

  /** A struct is rendered empty exactly when it has no fields, and then it
      derives nothing that would need a field. */
  lemma RenderedEmptyIffNoFields(ty: StructType, table: ParsedTable, opts: TableOptions, config: GenerationConfig, pascal: string -> string)
    ensures RenderedStructFor(ty, table, opts, config, pascal) == NoCode <==> Fields(ty, table, opts) == []
    ensures Fields(ty, table, opts) == [] ==> AsChangeset !in DeriveList(ty, table, opts, config)
  {
  }

  /** The condition under which `attr_derive` adds each trait. */
  lemma DeriveListConditions(ty: StructType, table: ParsedTable, opts: TableOptions, config: GenerationConfig)
    ensures var r := DeriveList(ty, table, opts, config);
            && Debug in r && Clone in r
            && (Serialize in r <==> config.defaultTableOptions.GetSerde())
            && (Deserialize in r <==> config.defaultTableOptions.GetSerde())
            && (Queryable in r <==> !opts.GetOnlyNecessaryDerives() || ty == Read)
            && (Insertable in r <==> !opts.GetOnlyNecessaryDerives() || ty == Create)
            && (Selectable in r <==> ty == Read)
            && (Identifiable in r <==> ty == Read && table.foreignKeys != [])
            && (Associations in r <==> ty == Read && table.foreignKeys != [])
            && (AsChangeset in r <==> exists f :: f in Fields(ty, table, opts) && f.name !in table.PrimaryKeyColumnNames())
  {
    WantedTraits(DeriveList(ty, table, opts, config), config.defaultTableOptions.GetSerde(),
                 !opts.GetOnlyNecessaryDerives() || ty == Read, !opts.GetOnlyNecessaryDerives() || ty == Create,
                 ty == Read, ty == Read && table.foreignKeys != [], HasChangeset(ty, table, opts));
    ChangesetWitness(Fields(ty, table, opts), table.PrimaryKeyColumnNames());
  }

  lemma WantedTraits(r: seq<Derive>, serde: bool, queryable: bool, insertable: bool, selectable: bool, related: bool, changeset: bool)
    requires forall d :: d in r <==> Wanted(d, serde, queryable, insertable, selectable, related, changeset)
    ensures Debug in r && Clone in r
    ensures (Serialize in r <==> serde) && (Deserialize in r <==> serde)
    ensures (Queryable in r <==> queryable) && (Insertable in r <==> insertable) && (Selectable in r <==> selectable)
    ensures (Identifiable in r <==> related) && (Associations in r <==> related)
    ensures AsChangeset in r <==> changeset
  {
  }

  lemma ChangesetWitness(fields: seq<StructField>, pkNames: seq<string>)
    ensures !AllArePrimaryKeys(fields, pkNames) <==> exists f :: f in fields && f.name !in pkNames
  {
    if !AllArePrimaryKeys(fields, pkNames) {
      var i :| 0 <= i < |fields| && fields[i].name !in pkNames;
      assert fields[i] in fields;
    } else {
      forall f | f in fields
        ensures f.name in pkNames
      {
        var i :| 0 <= i < |fields| && fields[i] == f;
      }
    }
  }

  /** The create and update functions are emitted exactly when the matching
      struct has fields; everything else is always emitted, in a fixed order. */
  lemma TableFnsShape(table: ParsedTable, config: GenerationConfig, createHasFields: bool, updateHasFields: bool)
    requires forall i :: 0 <= i < |table.primaryKeyColumns| ==> FindColumn(table.columns, table.primaryKeyColumns[i]).Some?
    ensures TableFnsFor(table, config, createHasFields, updateHasFields).Ok?
    ensures var blocks := TableFnsFor(table, config, createHasFields, updateHasFields).value.blocks;
            && blocks[..5] == [PaginationResultStruct(config.defaultTableOptions.GetSerde()), ImplOpen(table.structName),
                               CreateFn(createHasFields), ReadFn, PaginateFn]
            && (UpdateFn in blocks <==> updateHasFields)
            && blocks[|blocks| - 2..] == [DeleteFn, ImplClose]
  {
    PrimaryKeyPairs(table.columns, table.primaryKeyColumns);
  }

  /** A primary key naming no column makes generation fail (the source's
      panic). */
  lemma MissingPrimaryKeyColumnFails(table: ParsedTable, config: GenerationConfig, pascal: string -> string, pk: string)
    requires pk in table.primaryKeyColumns
    requires forall k :: 0 <= k < |table.columns| ==> table.columns[k].name != pk
    ensures TableCodeFor(table, config, pascal) == Err(Panic("Primary key column doesn't exist in table"))
  {
    var i :| 0 <= i < |table.primaryKeyColumns| && table.primaryKeyColumns[i] == pk;
    assert FindColumn(table.columns, table.primaryKeyColumns[i]).None?;
    PrimaryKeyPairs(table.columns, table.primaryKeyColumns);
  }

  function Col(ty: string, name: string): ParsedColumn {
    ParsedColumn(ty, name, false, false, name)
  }

  function DefaultConfig(): GenerationConfig {
    GenerationConfig(map[], DefaultTableOptions(), "diesel::pg::PgConnection", "crate::schema::", "crate::models::",
                     false, false, [], [])
  }

  /** With no per-table options and no read-only affixes, every table gets
      the default options. */
  lemma DefaultConfigTable(name: string)
    ensures DefaultConfig().Table(name) == DefaultTableOptions()
  {
    OptionsFacts.UnconfiguredTableGetsDefaults(DefaultConfig(), name);
  }

  function Users(): ParsedTable {
    ParsedTable("users", "Users", [Col("String", "name"), Col("String", "address"), Col("String", "secret")],
                ["name", "address"], [], None)
  }

  /** The `users` table with a two-column primary key: the Update struct
      keeps only `secret`, and the Read struct derives `AsChangeset`. */
  lemma MultiplePrimaryKeysStructs()
    ensures Fields(Update, Users(), DefaultTableOptions()) == [StructField("secret", "String", true)]
    ensures DeriveList(Read, Users(), DefaultTableOptions(), DefaultConfig())
            == [Debug, Clone, Serialize, Deserialize, Queryable, Insertable, Selectable, AsChangeset]
  {
    var t := Users();
    var o := DefaultTableOptions();
    assert Fields(Update, t, o) == [StructField("secret", "String", true)] by {
      assert t.columns[1..] == [Col("String", "address"), Col("String", "secret")];
      assert t.columns[1..][1..] == [Col("String", "secret")];
      assert "secret" != "name" && "secret" != "address";
    }
    var fields := Fields(Read, t, o);
    ReadKeepsEveryColumn(t, o, t.columns);
    assert fields[2].name == "secret";
    assert "secret" != "name" && "secret" != "address";
  }

  lemma UsersKeyColumns()
    ensures PrimaryKeyNameAndType(Users().columns, Users().primaryKeyColumns) == Ok([("name", "String"), ("address", "String")])
  {
    var t := Users();
    assert FindColumn(t.columns, "name") == Some(Col("String", "name"));
    assert FindColumn(t.columns, "address") == Some(Col("String", "address")) by {
      assert t.columns[1..] == [Col("String", "address"), Col("String", "secret")];
      assert "name" != "address";
    }
    var pairs := PrimaryKeyNameAndType(t.columns, t.primaryKeyColumns);
    assert pairs.Ok?;
    assert pairs.value == [("name", "String"), ("address", "String")];
  }

  lemma UsersItemIdParams()
    ensures ItemIdParams([("name", "String"), ("address", "String")]) == "param_name: String, param_address: String"
  {
    var pairs := [("name", "String"), ("address", "String")];
    var ds := ParamDecls(pairs);
    assert ds[1..] == [ds[1]];
    assert ItemIdParams(pairs) == ds[0] + ", " + ds[1];
    assert ds[0] == "param_name: String";
    assert ds[1] == "param_address: String";
    assert "param_name: String" + ", " + "param_address: String" == "param_name: String, param_address: String";
  }

  /** The text of one key's filter call, spelled out for the two keys of
      the `users` example. */
  lemma NameFilter()
    ensures "filter(" + "name" + ".eq(param_" + "name" + "))" == "filter(name.eq(param_name))"
  {
  }

  lemma AddressFilter()
    ensures "filter(" + "address" + ".eq(param_" + "address" + "))" == "filter(address.eq(param_address))"
  {
  }

  lemma UsersItemIdFilters()
    ensures ItemIdFilters([("name", "String"), ("address", "String")])
            == "filter(name.eq(param_name)).filter(address.eq(param_address))"
  {
    var pairs := [("name", "String"), ("address", "String")];
    assert pairs[1..] == [("address", "String")];
    assert [("address", "String")][1..] == [];
    NameFilter();
    AddressFilter();
    assert ParamFilters(pairs) == ["filter(name.eq(param_name))", "filter(address.eq(param_address))"];
    assert ["filter(name.eq(param_name))", "filter(address.eq(param_address))"][1..] == ["filter(address.eq(param_address))"];
    assert "filter(name.eq(param_name))" + "." + "filter(address.eq(param_address))"
           == "filter(name.eq(param_name)).filter(address.eq(param_address))";
  }

  /** Reading a `users` row takes and filters by both key columns. */
  lemma MultiplePrimaryKeysFns()
    ensures TableFnsFor(Users(), DefaultConfig(), true, true)
            == Ok(TableFns("param_name: String, param_address: String",
                           "filter(name.eq(param_name)).filter(address.eq(param_address))",
                           [PaginationResultStruct(true), ImplOpen("Users"), CreateFn(true), ReadFn, PaginateFn,
                            UpdateFn, DeleteFn, ImplClose]))
  {
    UsersKeyColumns();
    UsersItemIdParams();
    UsersItemIdFilters();
    var pairs := [("name", "String"), ("address", "String")];
    assert DefaultConfig().defaultTableOptions.GetSerde();
    assert TableFnsFor(Users(), DefaultConfig(), true, true)
           == Ok(TableFns(ItemIdParams(pairs), ItemIdFilters(pairs),
                          [PaginationResultStruct(true), ImplOpen("Users"), CreateFn(true), ReadFn, PaginateFn]
                          + [UpdateFn] + [DeleteFn, ImplClose]));
    assert [PaginationResultStruct(true), ImplOpen("Users"), CreateFn(true), ReadFn, PaginateFn]
           + [UpdateFn] + [DeleteFn, ImplClose]
           == [PaginationResultStruct(true), ImplOpen("Users"), CreateFn(true), ReadFn, PaginateFn,
               UpdateFn, DeleteFn, ImplClose];
  }

  function KeyOnly(): ParsedTable {
    ParsedTable("tableA", "TableA", [Col("i32", "_id")], ["_id"], [], None)
  }

  /** A table whose only column is its primary key gets no Update struct and
      its Read struct derives no `AsChangeset`. */
  lemma KeyOnlyTableStructs(pascal: string -> string)
    ensures RenderedStructFor(Update, KeyOnly(), DefaultTableOptions(), DefaultConfig(), pascal) == NoCode
    ensures DeriveList(Read, KeyOnly(), DefaultTableOptions(), DefaultConfig())
            == [Debug, Clone, Serialize, Deserialize, Queryable, Insertable, Selectable]
  {
    var t := KeyOnly();
    var o := DefaultTableOptions();
    assert Fields(Update, t, o) == [];
    assert Fields(Read, t, o) == [StructField("_id", "i32", false)];
  }

  /** ... and generates no update function. */
  lemma KeyOnlyTableFns(pascal: string -> string)
    ensures TableCodeFor(KeyOnly(), DefaultConfig(), pascal).Ok?
    ensures TableCodeFor(KeyOnly(), DefaultConfig(), pascal).value.updateStruct == NoCode
    ensures UpdateFn !in TableCodeFor(KeyOnly(), DefaultConfig(), pascal).value.fns.blocks
  {
    var t := KeyOnly();
    DefaultConfigTable("tableA");
    KeyOnlyTableStructs(pascal);
    assert Fields(Update, t, DefaultTableOptions()) == [];
    assert FindColumn(t.columns, "_id").Some?;
    TableFnsShape(t, DefaultConfig(), Fields(Create, t, DefaultTableOptions()) != [], false);
  }
}
