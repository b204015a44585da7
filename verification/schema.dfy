/** The records the schema parser produces (crates/lib/src/parser.rs) and the
    token trees it consumes. Tokens stand for `proc_macro2::TokenTree`s after
    tokenization; the tokenizer itself is not part of this model. */
module Schema {
  import opened Wrappers
  import opened Structs

  /** Marker at the head of every generated file. */
  const FILE_SIGNATURE: string := "/* This file is generated and managed by dsync */"

  /** `proc_macro2::Delimiter`; `NoDelim` is its `None` (an invisible group). */
  datatype Delimiter = Parenthesis | Brace | Bracket | NoDelim

  datatype Token =
    | Ident(name: string)
    | Punct(ch: char)
    | Literal(text: string)
    | Group(delim: Delimiter, stream: seq<Token>)

  /** One column of a `table!` declaration. */
  datatype ParsedColumn = ParsedColumn(
    ty: string,          // Rust type to use
    name: string,        // Rust name of the column
    isNullable: bool,
    isUnsigned: bool,
    columnName: string)  // actual column name in the database

  /** One `table!` declaration. */
  datatype ParsedTable = ParsedTable(
    name: string,
    structName: string,
    columns: seq<ParsedColumn>,
    primaryKeyColumns: seq<string>,
    foreignKeys: seq<(string, string)>,   // (foreign table name, local join column)
    generatedCode: Option<TableCode>)
  {
    function PrimaryKeyColumnNames(): seq<string> {
      primaryKeyColumns
    }
  }

  /** One `joinable!` declaration. */
  datatype ParsedJoin = ParsedJoin(
    table1: string,          // table holding the foreign key
    table2: string,          // table referenced
    table1Columns: string)   // the referencing column (Rust name)
}

/** The structure of the code generated for one table (crates/lib/src/code.rs).
    The template text is not modelled; what is recorded is what each part is
    made of: derives, fields, diesel attributes and the functions emitted. */
module Structs {
  import opened Wrappers

  /** The three struct variants generated per table. */
  datatype StructType = Read | Update | Create {

    function Prefix(): string {
      match this
      case Read => ""
      case Update => "Update"
      case Create => "Create"
    }

    function Suffix(): string {
      match this
      case Read => ""
      case Update => ""
      case Create => ""
    }

    /** The struct identifier: prefix, name, suffix. */
    function Format(name: string): (r: string)
      ensures |r| == |Prefix()| + |name| + |Suffix()|
      ensures r[|Prefix()|..|Prefix()| + |name|] == name
      ensures r[..|Prefix()|] == Prefix()
    {
      Prefix() + name + Suffix()
    }
  }

  datatype StructField = StructField(name: string, baseType: string, isOptional: bool) {

    /** The type written in the struct body. */
    function FieldType(): string {
      if isOptional then "Option<" + baseType + ">" else baseType
    }
  }

  /** The `#[diesel(...)]` attribute of a struct: the table, and for the Read
      struct only, its primary key list and `belongs_to` relations (the
      foreign table name in PascalCase, the join column). */
  datatype DieselAttr = DieselAttr(tableName: string, primaryKey: Option<seq<string>>, belongsTo: seq<(string, string)>)

  /** The traits `attr_derive` may list. */
  datatype Derive =
    | Debug | Clone | Serialize | Deserialize | Queryable | Insertable
    | Selectable | Identifiable | Associations | AsChangeset
  {
    /** The trait's name as written in the derive attribute. */
    function Name(): string {
      match this
      case Debug => "Debug"
      case Clone => "Clone"
      case Serialize => "Serialize"
      case Deserialize => "Deserialize"
      case Queryable => "Queryable"
      case Insertable => "Insertable"
      case Selectable => "Selectable"
      case Identifiable => "Identifiable"
      case Associations => "Associations"
      case AsChangeset => "AsChangeset"
    }
  }

  /** What `Struct::render` stores: nothing for a struct without fields,
      otherwise the struct's attributes and fields. */
  datatype RenderedStruct =
    | NoCode
    | StructCode(tsync: bool, derives: seq<Derive>, diesel: DieselAttr, identifier: string, fields: seq<StructField>)

  /** The pieces `build_table_fns` appends to its buffer, in order. */
  datatype FnBlock =
    | PaginationResultStruct(serialize: bool)
    | ImplOpen(structName: string)
    | CreateFn(takesItem: bool)
    | ReadFn
    | PaginateFn
    | UpdateFn
    | DeleteFn
    | ImplClose

  datatype TableFns = TableFns(itemIdParams: string, itemIdFilters: string, blocks: seq<FnBlock>)

  datatype TableCode = TableCode(
    readStruct: RenderedStruct,
    createStruct: RenderedStruct,
    updateStruct: RenderedStruct,
    fns: TableFns)
}
