/** Properties of the type mapper, the attribute and join parsers, and the
    item loop of the schema parser. */
module ParserFacts {
  import opened Wrappers
  import opened Errors
  import opened Strings
  import opened Options
  import opened Schema
  import opened Parser
  import Code

  // ---------------------------------------------------------------------
  // Type mapping

  /** Two spellings that agree ignoring ASCII case map to the same result. */
  lemma TypeLookupIgnoresCase(a: string, b: string, path: string)
    requires EqIgnoreAsciiCase(a, b)
    requires BuiltinRustType(ToLower(a)).Some? || ToLower(a) in UnsupportedTypeNames
    ensures SchemaTypeToRustType(a, path) == SchemaTypeToRustType(b, path)
  {
  }

  /** `Int4` and `int4` both give `i32`. */
  lemma Int4InAnyCase(path: string)
    ensures SchemaTypeToRustType("Int4", path) == Ok("i32")
    ensures SchemaTypeToRustType("int4", path) == Ok("i32")
  {
    assert ToLower("Int4") == "int4";
    assert ToLower("int4") == "int4";
  }

  /** The refused names are refused in any case. */
  lemma RefusedTypesInAnyCase(path: string)
    ensures SchemaTypeToRustType("Unsigned", path) == Err(UnsupportedType(UNSUPPORTED_TYPE_MESSAGE))
    ensures SchemaTypeToRustType("INET", path) == Err(UnsupportedType(UNSUPPORTED_TYPE_MESSAGE))
    ensures SchemaTypeToRustType("Cidr", path) == Err(UnsupportedType(UNSUPPORTED_TYPE_MESSAGE))
  {
    assert ToLower("Unsigned") == "unsigned";
    assert ToLower("INET") == "inet";
    assert ToLower("Cidr") == "cidr";
  }

  /** A custom SQL type keeps its spelling under the schema's `sql_types`
      module. */
  lemma CustomTypeKeepsItsCase()
    ensures SchemaTypeToRustType("FangTaskState", "crate::schema::")
            == Ok("crate::schema::sql_types::FangTaskState")
  {
    assert ToLower("FangTaskState") == "fangtaskstate";
    FangTaskStateIsUnknown();
    assert "crate::schema::" + "sql_types::" + "FangTaskState" == "crate::schema::sql_types::FangTaskState";
  }

  lemma FangTaskStateIsUnknown()
    ensures "fangtaskstate" !in UnsupportedTypeNames && BuiltinRustType("fangtaskstate").None?
  {
    assert "fangtaskstate" !in UnsupportedTypeNames;
  }

  // ---------------------------------------------------------------------
  // Attribute groups

  /** `[key = "value" ...]` gives back the key and the unquoted value. */
  lemma AttrGroupRoundTrip(key: string, value: string, rest: seq<Token>)
    ensures ParseDieselAttrGroup(Group(Bracket, [Ident(key), Punct('='), Literal("\"" + value + "\"")] + rest))
            == Some((key, value))
  {
    var q := "\"" + value + "\"";
    assert q[1..|q| - 1] == value;
  }

  /** A group that is not bracketed is never an attribute. */
  lemma AttrGroupNeedsBrackets(d: Delimiter, stream: seq<Token>)
    requires d != Bracket
    ensures ParseDieselAttrGroup(Group(d, stream)).None?
  {
  }

  // ---------------------------------------------------------------------
  // `joinable!` macros

  lemma {:induction false} ScanJoinAppend(s: JoinScan, a: seq<Token>, b: seq<Token>)
    ensures ScanJoin(s, a + b) == (var r := ScanJoin(s, a); if r.Ok? then ScanJoin(r.value, b) else r)
    decreases |a|
  {
    if a == [] {
      assert a + b == b;
    } else {
      assert (a + b)[0] == a[0] && (a + b)[1..] == a[1..] + b;
      var step := JoinStep(s, a[0]);
      if step.Ok? {
        ScanJoinAppend(step.value, a[1..], b);
      }
    }
  }

  /** `joinable!(t1 -> t2 (col))` gives the join (t1, t2, col). */
  lemma JoinRoundTrip(t1: string, t2: string, col: string)
    ensures ParseJoinMacro([Ident(t1), Punct('-'), Punct('>'), Ident(t2), Group(Parenthesis, [Ident(col)])])
            == Ok(ParsedJoin(t1, t2, col))
  {
    var t := [Ident(t1), Punct('-'), Punct('>'), Ident(t2), Group(Parenthesis, [Ident(col)])];
    var s1 := JoinScan(Some(t1), None, None);
    var s2 := JoinScan(Some(t1), Some(t2), None);
    var s3 := JoinScan(Some(t1), Some(t2), Some(col));
    assert StreamText([Ident(col)]) == col;
    assert t[1..] == [Punct('-'), Punct('>'), Ident(t2), Group(Parenthesis, [Ident(col)])];
    assert t[2..] == [Punct('>'), Ident(t2), Group(Parenthesis, [Ident(col)])];
    assert t[3..] == [Ident(t2), Group(Parenthesis, [Ident(col)])];
    assert t[4..] == [Group(Parenthesis, [Ident(col)])];
    assert t[1..][1..] == t[2..] && t[2..][1..] == t[3..] && t[3..][1..] == t[4..] && t[4..][1..] == [];
    assert ScanJoin(s3, []) == Ok(s3);
    assert ScanJoin(s2, t[4..]) == Ok(s3);
    assert ScanJoin(s1, t[3..]) == Ok(s3);
    assert ScanJoin(s1, t[2..]) == Ok(s3);
    assert ScanJoin(s1, t[1..]) == Ok(s3);
  }

  /** A group before both tables are named is an error. */
  lemma JoinGroupTooEarly(t1: string, d: Delimiter, stream: seq<Token>, rest: seq<Token>)
    ensures ParseJoinMacro([Ident(t1), Group(d, stream)] + rest)
            == Err(UnsupportedSchemaFormat("encountered join column group too early"))
  {
    var t := [Ident(t1), Group(d, stream)] + rest;
    var s1 := JoinScan(Some(t1), None, None);
    assert t[0] == Ident(t1) && t[1..][0] == Group(d, stream);
    assert JoinStep(JoinScan(None, None, None), t[0]) == Ok(s1);
    assert JoinStep(s1, t[1..][0]).Err?;
    assert ScanJoin(s1, t[1..]) == Err(UnsupportedSchemaFormat("encountered join column group too early"));
  }

  /** A later group replaces the join column: the last group wins. */
  lemma LastJoinGroupWins(tokens: seq<Token>, d: Delimiter, stream: seq<Token>)
    requires ParseJoinMacro(tokens).Ok?
    ensures ParseJoinMacro(tokens + [Group(d, stream)])
            == Ok(ParseJoinMacro(tokens).value.(table1Columns := StreamText(stream)))
  {
    ScanJoinAppend(JoinScan(None, None, None), tokens, [Group(d, stream)]);
    assert [Group(d, stream)][1..] == [];
  }

  /** Missing parts are reported first table first, then second table, then
      column. */
  lemma JoinMissingParts(a: string, b: string)
    ensures ParseJoinMacro([]) == Err(UnsupportedSchemaFormat("could not determine first join table name"))
    ensures ParseJoinMacro([Ident(a)]) == Err(UnsupportedSchemaFormat("could not determine second join table name"))
    ensures ParseJoinMacro([Ident(a), Ident(b)]) == Err(UnsupportedSchemaFormat("could not determine join column name"))
  {
    var s1 := JoinScan(Some(a), None, None);
    var s2 := JoinScan(Some(a), Some(b), None);
    assert [Ident(a)][1..] == [];
    assert [Ident(a), Ident(b)][1..] == [Ident(b)];
    assert ScanJoin(s1, []) == Ok(s1);
    assert ScanJoin(JoinScan(None, None, None), [Ident(a)]) == Ok(s1);
    assert ScanJoin(s2, []) == Ok(s2);
    assert ScanJoin(s1, [Ident(b)]) == Ok(s2);
    assert ScanJoin(JoinScan(None, None, None), [Ident(a), Ident(b)]) == Ok(s2);
  }

  // ---------------------------------------------------------------------
  // Attaching joins

  /** A join goes to the first table with its first table's name. */
  lemma {:induction false} AttachJoinFirstMatch(tables: seq<ParsedTable>, join: ParsedJoin, k: int)
    requires 0 <= k < |tables| && tables[k].name == join.table1
    requires forall j :: 0 <= j < k ==> tables[j].name != join.table1
    ensures AttachJoin(tables, join)
            == tables[k := tables[k].(foreignKeys := tables[k].foreignKeys + [(join.table2, join.table1Columns)])]
    decreases k
  {
    if k > 0 {
      AttachJoinFirstMatch(tables[1..], join, k - 1);
    }
  }

  /** A join whose first table has not been collected changes nothing. */
  lemma {:induction false} AttachJoinNoMatch(tables: seq<ParsedTable>, join: ParsedJoin)
    requires forall j :: 0 <= j < |tables| ==> tables[j].name != join.table1
    ensures AttachJoin(tables, join) == tables
    decreases |tables|
  {
    if tables != [] {
      AttachJoinNoMatch(tables[1..], join);
    }
  }

  /** Attaching a join keeps every table's name, columns and keys. */
  lemma {:induction false} AttachJoinKeepsTables(tables: seq<ParsedTable>, join: ParsedJoin)
    ensures forall j :: 0 <= j < |tables| ==>
              AttachJoin(tables, join)[j] == tables[j].(foreignKeys := AttachJoin(tables, join)[j].foreignKeys)
    decreases |tables|
  {
    if tables != [] && join.table1 != tables[0].name {
      AttachJoinKeepsTables(tables[1..], join);
      assert forall j :: 1 <= j < |tables| ==> AttachJoin(tables, join)[j] == AttachJoin(tables[1..], join)[j - 1];
    }
  }

  // ---------------------------------------------------------------------
  // Collecting tables

  predicate NoneIgnored(tables: seq<ParsedTable>, config: GenerationConfig) {
    forall j :: 0 <= j < |tables| ==> !config.Table(tables[j].name).GetIgnore()
  }

  /** An ignored table never reaches the collected list. */
  lemma {:induction false} IgnoredTablesNeverCollected(tables: seq<ParsedTable>, items: seq<Item>, config: GenerationConfig,
                                                      pascal: string -> string)
    requires NoneIgnored(tables, config)
    ensures CollectTables(tables, items, config, pascal).Ok? ==> NoneIgnored(CollectTables(tables, items, config, pascal).value, config)
    decreases |items|
  {
    if items != [] {
      var next := CollectStep(tables, items[0], config, pascal);
      if next.Ok? {
        match items[0] {
          case OtherItem =>
          case MacroItem(path, tokens) =>
            if path != [] && path[|path| - 1] != "table" && path[|path| - 1] == "joinable" {
              AttachJoinKeepsTables(tables, ParseJoinMacro(tokens).value);
            }
        }
        assert NoneIgnored(next.value, config);
        IgnoredTablesNeverCollected(next.value, items[1..], config, pascal);
      }
    }
  }

  /** A join that comes before its table is dropped: the table, once
      collected, has no foreign key. */
  lemma ForwardJoinIsDropped(joinTokens: seq<Token>, tableTokens: seq<Token>, config: GenerationConfig, pascal: string -> string)
    requires ParseJoinMacro(joinTokens).Ok? && ParseTableMacro(tableTokens, config.schemaPath, pascal).Ok?
    ensures var r := CollectTables([], [MacroItem(["diesel", "joinable"], joinTokens), MacroItem(["diesel", "table"], tableTokens)], config, pascal);
            r.Ok? && forall j :: 0 <= j < |r.value| ==> r.value[j].foreignKeys == []
  {
    var items := [MacroItem(["diesel", "joinable"], joinTokens), MacroItem(["diesel", "table"], tableTokens)];
    var t := ParseTableMacro(tableTokens, config.schemaPath, pascal).value;
    var collected := if !config.Table(t.name).GetIgnore() then [t] else [];
    assert CollectStep([], items[0], config, pascal) == Ok([]);
    assert [] + [t] == [t];
    assert CollectStep([], items[1], config, pascal) == Ok(collected);
    assert items[1..] == [items[1]] && items[1..][1..] == [];
    assert CollectTables(collected, [], config, pascal) == Ok(collected);
    assert CollectTables([], items[1..], config, pascal) == Ok(collected);
    assert CollectTables([], items, config, pascal) == Ok(collected);
  }

  /** A macro whose path has no segment is an error. */
  lemma MacroWithoutIdentifierFails(tokens: seq<Token>, rest: seq<Item>, config: GenerationConfig, pascal: string -> string)
    ensures ParseAndGenerate([MacroItem([], tokens)] + rest, config, pascal) == Err(Other("could not read identifier for macro"))
  {
    assert ([MacroItem([], tokens)] + rest)[0] == MacroItem([], tokens);
  }

  // ---------------------------------------------------------------------
  // Generating code

  /** Generation fails exactly when some table's code fails. */
  lemma {:induction false} GenerateFromFails(done: seq<ParsedTable>, rest: seq<ParsedTable>, config: GenerationConfig,
                                            pascal: string -> string)
    ensures GenerateFrom(done, rest, config, pascal).Ok?
            <==> forall j :: 0 <= j < |rest| ==> Code.TableCodeFor(rest[j], config, pascal).Ok?
    decreases |rest|
  {
    if rest != [] {
      var code := Code.TableCodeFor(rest[0], config, pascal);
      if code.Ok? {
        GenerateFromFails(done + [rest[0].(generatedCode := Some(code.value))], rest[1..], config, pascal);
        assert forall j :: 1 <= j < |rest| ==> rest[j] == rest[1..][j - 1];
      }
    }
  }

  /** Generation keeps the tables already done, then one table per table
      still to do. */
  lemma {:induction false} GenerateFromLength(done: seq<ParsedTable>, rest: seq<ParsedTable>, config: GenerationConfig,
                                             pascal: string -> string)
    requires GenerateFrom(done, rest, config, pascal).Ok?
    ensures var r := GenerateFrom(done, rest, config, pascal).value;
            |r| == |done| + |rest| && r[..|done|] == done
    decreases |rest|
  {
    if rest != [] {
      var code := Code.TableCodeFor(rest[0], config, pascal);
      var done' := done + [rest[0].(generatedCode := Some(code.value))];
      GenerateFromLength(done', rest[1..], config, pascal);
      var r := GenerateFrom(done', rest[1..], config, pascal).value;
      assert r[..|done|] == r[..|done'|][..|done|];
    }
  }

  /** Each table, in its place, carries the code generated for it. */
  lemma {:induction false} GenerateFromStoresCode(done: seq<ParsedTable>, rest: seq<ParsedTable>, j: int, config: GenerationConfig,
                                                 pascal: string -> string)
    requires GenerateFrom(done, rest, config, pascal).Ok?
    requires 0 <= j < |rest|
    ensures Code.TableCodeFor(rest[j], config, pascal).Ok?
    ensures var r := GenerateFrom(done, rest, config, pascal).value;
            |done| + j < |r| && r[|done| + j] == rest[j].(generatedCode := Some(Code.TableCodeFor(rest[j], config, pascal).value))
    decreases |rest|
  {
    var code := Code.TableCodeFor(rest[0], config, pascal);
    var done' := done + [rest[0].(generatedCode := Some(code.value))];
    assert code.Ok?;
    var r := GenerateFrom(done', rest[1..], config, pascal).value;
    assert GenerateFrom(done, rest, config, pascal).value == r;
    GenerateFromLength(done', rest[1..], config, pascal);
    if j == 0 {
      assert r[..|done'|][|done|] == done'[|done|];
    } else {
      GenerateFromStoresCode(done', rest[1..], j - 1, config, pascal);
      assert rest[1..][j - 1] == rest[j];
    }
  }
}
