/** Round trips for `table!` declarations: the tokens of a well-formed
    declaration parse back to the declared columns, keys and name. */
module ColumnFacts {
  import opened Wrappers
  import opened Errors
  import opened Strings
  import opened Schema
  import opened Parser

  // ---------------------------------------------------------------------
  // Folds over concatenated token streams

  lemma {:induction false} ScanColumnsAppend(s: ColumnSlots, a: seq<Token>, b: seq<Token>, path: string)
    ensures ScanColumns(s, a + b, path)
            == (var r := ScanColumns(s, a, path); if r.Ok? then ScanColumns(r.value, b, path) else r)
    decreases |a|
  {
    if a == [] {
      assert a + b == b;
    } else {
      assert (a + b)[0] == a[0] && (a + b)[1..] == a[1..] + b;
      var step := ColumnStep(s, a[0], path);
      if step.Ok? {
        ScanColumnsAppend(step.value, a[1..], b, path);
      }
    }
  }

  /** Two scans that succeed one after the other are one scan of the joined
      tokens. */
  lemma ScanChain(s0: ColumnSlots, a: seq<Token>, b: seq<Token>, s1: ColumnSlots, s2: ColumnSlots, path: string)
    requires ScanColumns(s0, a, path) == Ok(s1) && ScanColumns(s1, b, path) == Ok(s2)
    ensures ScanColumns(s0, a + b, path) == Ok(s2)
  {
    ScanColumnsAppend(s0, a, b, path);
  }

  lemma ScanChain3(s0: ColumnSlots, a: seq<Token>, b: seq<Token>, c: seq<Token>,
                   s1: ColumnSlots, s2: ColumnSlots, s3: ColumnSlots, path: string)
    requires ScanColumns(s0, a, path) == Ok(s1) && ScanColumns(s1, b, path) == Ok(s2)
    requires ScanColumns(s2, c, path) == Ok(s3)
    ensures ScanColumns(s0, a + b + c, path) == Ok(s3)
  {
    ScanChain(s1, b, c, s2, s3, path);
    ScanChain(s0, a, b + c, s1, s3, path);
    assert a + b + c == a + (b + c);
  }

  lemma {:induction false} ScanTableAppend(s: TableScan, a: seq<Token>, b: seq<Token>, path: string)
    ensures ScanTable(s, a + b, path)
            == (var r := ScanTable(s, a, path); if r.Ok? then ScanTable(r.value, b, path) else r)
    decreases |a|
  {
    if a == [] {
      assert a + b == b;
    } else {
      assert (a + b)[0] == a[0] && (a + b)[1..] == a[1..] + b;
      var step := TableStep(s, a[0], path);
      if step.Ok? {
        ScanTableAppend(step.value, a[1..], b, path);
      }
    }
  }

  // ---------------------------------------------------------------------
  // Column declarations

  /** A column as written in a `table!` body:
      `#[sql_name = "v"] name -> Nullable<Unsigned<a::b::Type>>,` with the
      attribute and both wrappers optional. */
  datatype ColumnDecl = ColumnDecl(
    sqlName: Option<string>,
    name: string,
    typePath: seq<string>,
    nullable: bool,
    unsigned: bool)
  {
    predicate WellFormed() {
      |typePath| >= 1
      && (forall k :: 0 <= k < |typePath| ==>
            !EqIgnoreAsciiCase(typePath[k], "Nullable") && !EqIgnoreAsciiCase(typePath[k], "Unsigned"))
      && ToLower(typePath[|typePath| - 1]) !in UnsupportedTypeNames
    }

    function TypeName(): string
      requires |typePath| >= 1
    {
      typePath[|typePath| - 1]
    }
  }

  function PathTokens(p: seq<string>): seq<Token>
    requires |p| >= 1
  {
    if |p| == 1 then [Ident(p[0])] else [Ident(p[0]), Punct(':'), Punct(':')] + PathTokens(p[1..])
  }

  function AttrTokens(sqlName: Option<string>): seq<Token> {
    match sqlName
    case None => []
    case Some(v) => [Punct('#'), Group(Bracket, [Ident("sql_name"), Punct('='), Literal("\"" + v + "\"")])]
  }

  function OpenTokens(d: ColumnDecl): seq<Token> {
    (if d.nullable then [Ident("Nullable"), Punct('<')] else [])
    + (if d.unsigned then [Ident("Unsigned"), Punct('<')] else [])
  }

  function CloseTokens(d: ColumnDecl): seq<Token> {
    (if d.unsigned then [Punct('>')] else []) + (if d.nullable then [Punct('>')] else [])
  }

  function DeclTokens(d: ColumnDecl): seq<Token>
    requires |d.typePath| >= 1
  {
    AttrTokens(d.sqlName) + [Ident(d.name), Punct('-'), Punct('>')] + OpenTokens(d)
    + PathTokens(d.typePath) + CloseTokens(d) + [Punct(',')]
  }

  predicate AllWellFormed(ds: seq<ColumnDecl>) {
    forall i :: 0 <= i < |ds| ==> ds[i].WellFormed()
  }

  function DeclsTokens(ds: seq<ColumnDecl>): seq<Token>
    requires AllWellFormed(ds)
  {
    if ds == [] then [] else DeclTokens(ds[0]) + DeclsTokens(ds[1..])
  }

  /** The column a well-formed declaration stands for. */
  function ColumnOf(d: ColumnDecl, path: string): ParsedColumn
    requires d.WellFormed()
  {
    ParsedColumn(SchemaTypeToRustType(d.TypeName(), path).value, d.name, d.nullable, d.unsigned,
                 d.sqlName.GetOr(d.name))
  }

  function ColumnsOf(ds: seq<ColumnDecl>, path: string): (r: seq<ParsedColumn>)
    requires AllWellFormed(ds)
    ensures |r| == |ds|
  {
    if ds == [] then [] else [ColumnOf(ds[0], path)] + ColumnsOf(ds[1..], path)
  }

  lemma StripQuotesOfQuoted(v: string)
    ensures StripQuotes("\"" + v + "\"") == v
  {
    var q := "\"" + v + "\"";
    assert q[1..|q| - 1] == v;
  }

  lemma AttrScan(s: ColumnSlots, sqlName: Option<string>, path: string)
    requires !s.hadHashtag
    ensures ScanColumns(s, AttrTokens(sqlName), path)
            == Ok(if sqlName.Some? then s.(actualName := sqlName) else s)
  {
    if sqlName.Some? {
      var t := AttrTokens(sqlName);
      var g := t[1];
      StripQuotesOfQuoted(sqlName.value);
      assert ParseDieselAttrGroup(g) == Some(("sql_name", sqlName.value));
      var sh := s.(hadHashtag := true);
      assert ColumnStep(s, t[0], path) == Ok(sh);
      assert ScanColumns(s, t, path) == ScanColumns(sh, t[1..], path);
      assert ColumnStep(sh, g, path) == Ok(s.(actualName := sqlName));
      assert t[1..] == [g] && [g][1..] == [];
      assert ScanColumns(sh, t[1..], path) == ScanColumns(s.(actualName := sqlName), [], path);
    }
  }

  lemma NameScan(s: ColumnSlots, name: string, path: string)
    requires !s.hadHashtag && s.rustName.None?
    ensures ScanColumns(s, [Ident(name), Punct('-'), Punct('>')], path) == Ok(s.(rustName := Some(name)))
  {
    var t := [Ident(name), Punct('-'), Punct('>')];
    var s1 := s.(rustName := Some(name));
    assert ColumnStep(s, t[0], path) == Ok(s1);
    assert ScanColumns(s, t, path) == ScanColumns(s1, t[1..], path);
    assert t[1..] == [Punct('-'), Punct('>')] && t[1..][1..] == [Punct('>')] && t[1..][1..][1..] == [];
    assert ColumnStep(s1, Punct('-'), path) == Ok(s1);
    assert ScanColumns(s1, t[1..], path) == ScanColumns(s1, t[1..][1..], path);
    assert ColumnStep(s1, Punct('>'), path) == Ok(s1);
    assert ScanColumns(s1, t[1..][1..], path) == ScanColumns(s1, [], path);
  }

  lemma OpenScan(s: ColumnSlots, word: string, setsNullable: bool, path: string)
    requires !s.hadHashtag && s.rustName.Some?
    requires word == (if setsNullable then "Nullable" else "Unsigned")
    ensures ScanColumns(s, [Ident(word), Punct('<')], path)
            == Ok(if setsNullable then s.(nullable := true) else s.(unsigned := true))
  {
    var t := [Ident(word), Punct('<')];
    var s1 := if setsNullable then s.(nullable := true) else s.(unsigned := true);
    if !setsNullable {
      assert !EqIgnoreAsciiCase("Unsigned", "Nullable") by {
        assert ToLower("Unsigned")[0] == 'u' && ToLower("Nullable")[0] == 'n';
      }
    }
    assert ColumnStep(s, t[0], path) == Ok(s1);
    assert ScanColumns(s, t, path) == ScanColumns(s1, t[1..], path);
    assert t[1..] == [Punct('<')] && t[1..][1..] == [];
    assert ColumnStep(s1, Punct('<'), path) == Ok(s1);
    assert ScanColumns(s1, t[1..], path) == ScanColumns(s1, [], path);
  }

  lemma WrapperScan(s: ColumnSlots, d: ColumnDecl, path: string)
    requires !s.hadHashtag && s.rustName.Some?
    ensures ScanColumns(s, OpenTokens(d), path) == Ok(s.(nullable := s.nullable || d.nullable, unsigned := s.unsigned || d.unsigned))
  {
    var n := if d.nullable then [Ident("Nullable"), Punct('<')] else [];
    var u := if d.unsigned then [Ident("Unsigned"), Punct('<')] else [];
    ScanColumnsAppend(s, n, u, path);
    var s1 := s.(nullable := s.nullable || d.nullable);
    if d.nullable {
      OpenScan(s, "Nullable", true, path);
    }
    if d.unsigned {
      OpenScan(s1, "Unsigned", false, path);
    }
  }

  lemma {:induction false} PathScan(s: ColumnSlots, p: seq<string>, path: string)
    requires !s.hadHashtag && s.rustName.Some? && |p| >= 1
    requires forall k :: 0 <= k < |p| ==> !EqIgnoreAsciiCase(p[k], "Nullable") && !EqIgnoreAsciiCase(p[k], "Unsigned")
    ensures ScanColumns(s, PathTokens(p), path) == Ok(s.(columnType := Some(p[|p| - 1])))
    decreases |p|
  {
    var s1 := s.(columnType := Some(p[0]));
    var t := PathTokens(p);
    assert ColumnStep(s, Ident(p[0]), path) == Ok(s1);
    assert ScanColumns(s, t, path) == ScanColumns(s1, t[1..], path);
    if |p| == 1 {
      assert t[1..] == [];
    } else {
      var colons := [Punct(':'), Punct(':')];
      assert t[1..] == colons + PathTokens(p[1..]);
      ScanColumnsAppend(s1, colons, PathTokens(p[1..]), path);
      assert ColumnStep(s1, Punct(':'), path) == Ok(s1);
      assert colons[1..] == [Punct(':')] && colons[1..][1..] == [];
      assert ScanColumns(s1, colons, path) == ScanColumns(s1, colons[1..], path) == ScanColumns(s1, [], path);
      PathScan(s1, p[1..], path);
    }
  }

  lemma CloseScan(s: ColumnSlots, d: ColumnDecl, path: string)
    requires !s.hadHashtag
    ensures ScanColumns(s, CloseTokens(d), path) == Ok(s)
  {
    var u: seq<Token> := if d.unsigned then [Punct('>')] else [];
    var n: seq<Token> := if d.nullable then [Punct('>')] else [];
    ScanColumnsAppend(s, u, n, path);
    assert ColumnStep(s, Punct('>'), path) == Ok(s);
    assert [Punct('>')][1..] == [];
  }

  /** The slots after the name, the arrow and the wrappers of a declaration. */
  function HeadState(columns: seq<ParsedColumn>, d: ColumnDecl): ColumnSlots {
    ColumnSlots(Some(d.name), d.sqlName, None, d.nullable, d.unsigned, false, columns)
  }

  lemma HeadScan(columns: seq<ParsedColumn>, d: ColumnDecl, path: string)
    ensures ScanColumns(EmptySlots(columns), AttrTokens(d.sqlName) + [Ident(d.name), Punct('-'), Punct('>')] + OpenTokens(d), path)
            == Ok(HeadState(columns, d))
  {
    var s0 := EmptySlots(columns);
    var a := AttrTokens(d.sqlName);
    var b := [Ident(d.name), Punct('-'), Punct('>')];
    var c := OpenTokens(d);
    assert a + b + c == a + (b + c);
    ScanColumnsAppend(s0, a, b + c, path);
    AttrScan(s0, d.sqlName, path);
    var s1 := if d.sqlName.Some? then s0.(actualName := d.sqlName) else s0;
    ScanColumnsAppend(s1, b, c, path);
    NameScan(s1, d.name, path);
    WrapperScan(s1.(rustName := Some(d.name)), d, path);
  }

  lemma TailScan(columns: seq<ParsedColumn>, d: ColumnDecl, sEnd: ColumnSlots, path: string)
    requires |d.typePath| >= 1
    requires forall k :: 0 <= k < |d.typePath| ==>
               !EqIgnoreAsciiCase(d.typePath[k], "Nullable") && !EqIgnoreAsciiCase(d.typePath[k], "Unsigned")
    requires ScanColumns(HeadState(columns, d).(columnType := Some(d.TypeName())), [Punct(',')], path) == Ok(sEnd)
    ensures ScanColumns(HeadState(columns, d), PathTokens(d.typePath) + CloseTokens(d) + [Punct(',')], path) == Ok(sEnd)
  {
    var s4 := HeadState(columns, d).(columnType := Some(d.TypeName()));
    PathScan(HeadState(columns, d), d.typePath, path);
    CloseScan(s4, d, path);
    ScanChain3(HeadState(columns, d), PathTokens(d.typePath), CloseTokens(d), [Punct(',')], s4, s4, sEnd, path);
  }

  /** The comma after a declaration's type completes its column. */
  lemma CommaScan(columns: seq<ParsedColumn>, d: ColumnDecl, path: string)
    requires d.WellFormed()
    ensures ScanColumns(HeadState(columns, d).(columnType := Some(d.TypeName())), [Punct(',')], path)
            == Ok(EmptySlots(columns + [ColumnOf(d, path)]))
  {
    var s4 := HeadState(columns, d).(columnType := Some(d.TypeName()));
    assert [Punct(',')][1..] == [];
    assert ColumnStep(s4, Punct(','), path) == Ok(EmptySlots(columns + [ColumnOf(d, path)]));
  }

  /** A well-formed declaration, read from idle slots, adds exactly its column
      and leaves the slots idle again. */
  lemma DeclScan(columns: seq<ParsedColumn>, d: ColumnDecl, path: string)
    requires d.WellFormed()
    ensures ScanColumns(EmptySlots(columns), DeclTokens(d), path) == Ok(EmptySlots(columns + [ColumnOf(d, path)]))
  {
    var head := AttrTokens(d.sqlName) + [Ident(d.name), Punct('-'), Punct('>')] + OpenTokens(d);
    var tail := PathTokens(d.typePath) + CloseTokens(d) + [Punct(',')];
    assert DeclTokens(d) == head + tail;
    ScanColumnsAppend(EmptySlots(columns), head, tail, path);
    HeadScan(columns, d, path);
    CommaScan(columns, d, path);
    TailScan(columns, d, EmptySlots(columns + [ColumnOf(d, path)]), path);
  }

  lemma {:induction false} DeclsScan(columns: seq<ParsedColumn>, ds: seq<ColumnDecl>, path: string)
    requires AllWellFormed(ds)
    ensures ScanColumns(EmptySlots(columns), DeclsTokens(ds), path) == Ok(EmptySlots(columns + ColumnsOf(ds, path)))
    decreases |ds|
  {
    if ds == [] {
      assert columns + [] == columns;
    } else {
      DeclsScan(columns + [ColumnOf(ds[0], path)], ds[1..], path);
      DeclsCons(columns, ds[0], DeclsTokens(ds[1..]), ColumnsOf(ds[1..], path), path);
    }
  }

  /** The step of `DeclsScan`: the first declaration, then the others. */
  lemma DeclsCons(columns: seq<ParsedColumn>, d: ColumnDecl, rest: seq<Token>, restColumns: seq<ParsedColumn>, path: string)
    requires d.WellFormed()
    requires ScanColumns(EmptySlots(columns + [ColumnOf(d, path)]), rest, path)
             == Ok(EmptySlots(columns + [ColumnOf(d, path)] + restColumns))
    ensures ScanColumns(EmptySlots(columns), DeclTokens(d) + rest, path)
            == Ok(EmptySlots(columns + ([ColumnOf(d, path)] + restColumns)))
  {
    assert columns + [ColumnOf(d, path)] + restColumns == columns + ([ColumnOf(d, path)] + restColumns);
    DeclThen(columns, d, rest, EmptySlots(columns + [ColumnOf(d, path)] + restColumns), path);
  }

  /** A declaration followed by more tokens: its column is added, then the
      rest is scanned from idle slots. */
  lemma DeclThen(columns: seq<ParsedColumn>, d: ColumnDecl, rest: seq<Token>, s2: ColumnSlots, path: string)
    requires d.WellFormed()
    requires ScanColumns(EmptySlots(columns + [ColumnOf(d, path)]), rest, path) == Ok(s2)
    ensures ScanColumns(EmptySlots(columns), DeclTokens(d) + rest, path) == Ok(s2)
  {
    DeclScan(columns, d, path);
    ScanChain(EmptySlots(columns), DeclTokens(d), rest, EmptySlots(columns + [ColumnOf(d, path)]), s2, path);
  }

  /** The body of a `table!` macro parses to its declared columns, in order,
      each with its `sql_name` (or its own name), its flags and its mapped
      type. */
  lemma ColumnGroupRoundTrip(ds: seq<ColumnDecl>, path: string)
    requires AllWellFormed(ds)
    ensures ParseColumnGroup(DeclsTokens(ds), path) == Ok(ColumnsOf(ds, path))
  {
    DeclsScan([], ds, path);
    assert [] + ColumnsOf(ds, path) == ColumnsOf(ds, path);
  }

  // ---------------------------------------------------------------------
  // Errors inside a column group

  lemma {:induction false} ScanColumnsFailsOnLiteral(s: ColumnSlots, tokens: seq<Token>, k: int, path: string)
    requires 0 <= k < |tokens| && tokens[k].Literal?
    ensures ScanColumns(s, tokens, path).Err?
    decreases |tokens|
  {
    var step := ColumnStep(s, tokens[0], path);
    if step.Ok? && k > 0 {
      ScanColumnsFailsOnLiteral(step.value, tokens[1..], k - 1, path);
    }
  }

  /** A literal anywhere in a column group is an error. */
  lemma LiteralInColumnGroupFails(tokens: seq<Token>, k: int, path: string)
    requires 0 <= k < |tokens| && tokens[k].Literal?
    ensures ParseColumnGroup(tokens, path).Err?
  {
    ScanColumnsFailsOnLiteral(EmptySlots([]), tokens, k, path);
  }

  /** A group that ends in an identifier leaves a column partially defined
      (unless an earlier token already failed). */
  lemma TrailingIdentIsPartial(tokens: seq<Token>, n: string, path: string)
    ensures ParseColumnGroup(tokens + [Ident(n)], path).Err?
    ensures ScanColumns(EmptySlots([]), tokens, path).Ok? ==>
              ParseColumnGroup(tokens + [Ident(n)], path) == Err(UnsupportedSchemaFormat("It seems a column was partially defined"))
  {
    ScanColumnsAppend(EmptySlots([]), tokens, [Ident(n)], path);
    var r := ScanColumns(EmptySlots([]), tokens, path);
    if r.Ok? {
      assert [Ident(n)][1..] == [];
      var last := ColumnStep(r.value, Ident(n), path);
      assert last.Ok? && !last.value.Idle();
    }
  }

  // ---------------------------------------------------------------------
  // `table!` macros

  function KeyTokens(keys: seq<string>): seq<Token> {
    if keys == [] then []
    else if |keys| == 1 then [Ident(keys[0])]
    else [Ident(keys[0]), Punct(',')] + KeyTokens(keys[1..])
  }

  lemma {:induction false} KeyTokensNames(keys: seq<string>)
    ensures IdentNames(KeyTokens(keys)) == keys
    decreases |keys|
  {
    if |keys| == 1 {
      assert KeyTokens(keys)[1..] == [];
    } else if |keys| > 1 {
      var t := KeyTokens(keys);
      assert t[1..] == [Punct(',')] + KeyTokens(keys[1..]);
      assert t[1..][1..] == KeyTokens(keys[1..]);
      KeyTokensNames(keys[1..]);
    }
  }

  /** A `use` statement inside the macro: `use` and its path up to `;`. */
  function UseTokens(body: seq<Token>): seq<Token> {
    [Ident("use")] + body + [Punct(';')]
  }

  lemma {:induction false} SkipScan(s: TableScan, body: seq<Token>, path: string)
    requires s.skipUntilSemicolon
    requires forall k :: 0 <= k < |body| ==> body[k] != Punct(';')
    ensures ScanTable(s, body, path) == Ok(s)
    decreases |body|
  {
    if body != [] {
      SkipScan(s, body[1..], path);
    }
  }

  lemma UseScan(s: TableScan, body: seq<Token>, path: string)
    requires !s.skipUntilSemicolon
    requires forall k :: 0 <= k < |body| ==> body[k] != Punct(';')
    ensures ScanTable(s, UseTokens(body), path) == Ok(s)
  {
    var skipping := s.(skipUntilSemicolon := true);
    assert UseTokens(body) == [Ident("use")] + (body + [Punct(';')]);
    ScanTableAppend(s, [Ident("use")], body + [Punct(';')], path);
    assert TableStep(s, Ident("use"), path) == Ok(skipping);
    assert [Ident("use")][1..] == [];
    assert ScanTable(s, [Ident("use")], path) == ScanTable(skipping, [], path);
    ScanTableAppend(skipping, body, [Punct(';')], path);
    SkipScan(skipping, body, path);
    assert TableStep(skipping, Punct(';'), path) == Ok(s);
    assert [Punct(';')][1..] == [];
    assert ScanTable(skipping, [Punct(';')], path) == ScanTable(s, [], path);
  }

  /** A whole `table!` macro: a `use` line, an attribute such as `#[sql_name]`,
      then `name (keys) { columns }`. */
  function TableTokens(useBody: seq<Token>, attr: seq<Token>, name: string, keys: seq<string>, ds: seq<ColumnDecl>): seq<Token>
    requires AllWellFormed(ds)
  {
    UseTokens(useBody) + [Punct('#'), Group(Bracket, attr)]
    + [Ident(name), Group(Parenthesis, KeyTokens(keys)), Group(Brace, DeclsTokens(ds))]
  }

  lemma AttributeScan(attr: seq<Token>, path: string)
    ensures ScanTable(TableStart, [Punct('#'), Group(Bracket, attr)], path) == Ok(TableStart)
  {
    var a := [Punct('#'), Group(Bracket, attr)];
    var sb := TableStart.(skipSquareBrackets := true);
    assert TableStep(TableStart, a[0], path) == Ok(sb);
    assert ScanTable(TableStart, a, path) == ScanTable(sb, a[1..], path);
    assert TableStep(sb, a[1], path) == Ok(TableStart);
    assert a[1..] == [Group(Bracket, attr)] && a[1..][1..] == [];
    assert ScanTable(sb, a[1..], path) == ScanTable(TableStart, [], path);
  }

  lemma DeclarationScan(name: string, keys: seq<string>, ds: seq<ColumnDecl>, path: string)
    requires name != "use" && AllWellFormed(ds)
    ensures ScanTable(TableStart, [Ident(name), Group(Parenthesis, KeyTokens(keys)), Group(Brace, DeclsTokens(ds))], path)
            == Ok(TableScan(false, false, Some(name), keys, ColumnsOf(ds, path)))
  {
    var t := [Ident(name), Group(Parenthesis, KeyTokens(keys)), Group(Brace, DeclsTokens(ds))];
    var s1 := TableStart.(name := Some(name));
    assert TableStep(TableStart, t[0], path) == Ok(s1);
    KeyTokensNames(keys);
    var s2 := s1.(primaryKeys := keys);
    assert s1.primaryKeys + IdentNames(KeyTokens(keys)) == keys;
    assert TableStep(s1, t[1], path) == Ok(s2);
    ColumnGroupRoundTrip(ds, path);
    var s3 := s2.(columns := ColumnsOf(ds, path));
    assert s2.columns + ColumnsOf(ds, path) == ColumnsOf(ds, path);
    assert TableStep(s2, t[2], path) == Ok(s3);
    assert t[1..] == [t[1], t[2]] && t[1..][1..] == [t[2]] && t[1..][1..][1..] == [];
    assert ScanTable(TableStart, t, path) == ScanTable(s1, t[1..], path);
    assert ScanTable(s1, t[1..], path) == ScanTable(s2, t[1..][1..], path);
    assert ScanTable(s2, t[1..][1..], path) == ScanTable(s3, [], path);
  }

  /** A declared table parses back to its name, its PascalCase struct name,
      its primary keys and its columns; the `use` line and the attribute are
      skipped. */
  lemma TableRoundTrip(useBody: seq<Token>, attr: seq<Token>, name: string, keys: seq<string>, ds: seq<ColumnDecl>,
                       path: string, pascal: string -> string)
    requires forall k :: 0 <= k < |useBody| ==> useBody[k] != Punct(';')
    requires name != "use" && AllWellFormed(ds)
    ensures ParseTableMacro(TableTokens(useBody, attr, name, keys, ds), path, pascal)
            == Ok(ParsedTable(name, pascal(name), ColumnsOf(ds, path), keys, [], None))
  {
    var u := UseTokens(useBody);
    var a := [Punct('#'), Group(Bracket, attr)];
    var t := [Ident(name), Group(Parenthesis, KeyTokens(keys)), Group(Brace, DeclsTokens(ds))];
    assert TableTokens(useBody, attr, name, keys, ds) == u + (a + t);
    ScanTableAppend(TableStart, u, a + t, path);
    UseScan(TableStart, useBody, path);
    ScanTableAppend(TableStart, a, t, path);
    AttributeScan(attr, path);
    DeclarationScan(name, keys, ds, path);
  }

  lemma {:induction false} NamelessScan(s: TableScan, tokens: seq<Token>, path: string)
    requires s.name.None?
    requires forall k :: 0 <= k < |tokens| ==> !tokens[k].Ident?
    ensures ScanTable(s, tokens, path).Ok? ==> ScanTable(s, tokens, path).value.name.None?
    decreases |tokens|
  {
    if tokens != [] {
      var step := TableStep(s, tokens[0], path);
      if step.Ok? {
        NamelessScan(step.value, tokens[1..], path);
      }
    }
  }

  /** Without a top-level identifier there is no table name, which is an error. */
  lemma TableWithoutNameFails(tokens: seq<Token>, path: string, pascal: string -> string)
    requires forall k :: 0 <= k < |tokens| ==> !tokens[k].Ident?
    ensures ParseTableMacro(tokens, path, pascal).Err?
  {
    NamelessScan(TableStart, tokens, path);
  }

  /** The table name is the last top-level identifier outside a `use`
      statement: an identifier appended to a macro that scans cleanly and is
      not inside a `use` becomes the name. */
  lemma LastIdentNamesTable(tokens: seq<Token>, n: string, path: string, pascal: string -> string)
    requires ScanTable(TableStart, tokens, path).Ok? && !ScanTable(TableStart, tokens, path).value.skipUntilSemicolon
    requires n != "use"
    ensures ParseTableMacro(tokens + [Ident(n)], path, pascal).Ok?
    ensures ParseTableMacro(tokens + [Ident(n)], path, pascal).value.name == n
  {
    ScanTableAppend(TableStart, tokens, [Ident(n)], path);
    assert [Ident(n)][1..] == [];
  }

  /** A top-level literal (outside a `use`) is an error. */
  lemma TopLevelLiteralFails(tokens: seq<Token>, text: string, rest: seq<Token>, path: string, pascal: string -> string)
    requires ScanTable(TableStart, tokens, path).Ok? && !ScanTable(TableStart, tokens, path).value.skipUntilSemicolon
    ensures ParseTableMacro(tokens + [Literal(text)] + rest, path, pascal)
            == Err(UnsupportedSchemaFormat("Invalid token tree item in diesel table macro"))
  {
    assert tokens + [Literal(text)] + rest == tokens + ([Literal(text)] + rest);
    ScanTableAppend(TableStart, tokens, [Literal(text)] + rest, path);
  }
}
