# dsync: a model of the generator core

dsync reads a Diesel `schema.rs` and writes one Rust model module per
table: a `Read` struct, `Create` and `Update` structs, and CRUD functions.
The generated files carry a signature comment. It keeps the output
directory in step with the schema:

- it declares every table module in the root `mod.rs`;
- it refuses to overwrite a file that lacks the signature;
- it deletes the generated code of tables that have disappeared.

The model covers four parts of dsync:

- **Table options** (`src/lib.rs`). These are the per-table settings,
  their builders and how table settings merge with the defaults. Modules
  `Options` and `OptionsFacts`.
- **Schema parser** (`crates/lib/src/parser.rs`). It walks the token trees
  of the `table!` and `joinable!` macros. Modules `Schema`, `Parser`,
  `ParserFacts` and `ColumnFacts`.
  - The scan is modelled twice. Folds of one step function over the token
    sequence say what the scan computes. Methods with loops walk the
    tokens as the source does.
  - Each method is proved equal to its fold.
  - Round-trip lemmas rebuild the token stream of a column list, a
    `table!` body and a `joinable!` body, and prove the parser gives back
    what they were built from.
- **Struct and function generation** (`crates/lib/src/code.rs`). It
  selects fields per struct kind, lists the derives, finds the primary-key
  columns and decides which CRUD blocks to emit. Modules `Structs`, `Code`
  and `CodeFacts`.
- **Marked files and `generate_files`** (`crates/lib/src/file.rs` and
  `src/lib.rs`). Modules `MarkedFiles`, `MarkedFileFacts`, `Sync` and
  `SyncFacts`.
  - `MarkedFile` is a class whose `fileContents` the methods update in place.
  - The file system is a value, `Disk`: a map from paths to file contents
    plus a set of directories. A path is a sequence of segments.
  - `Generate` specifies a whole run as a function of the disk: setup,
    pass 1 and pass 2.
  - `GenerateFiles` is the imperative run. It holds the root `mod.rs` as a
    `MarkedFile`, loops over the tables and then over the directory
    entries, and is proved equal to `Generate`.
  - Lemmas about the two passes show what a run guarantees:
    - after pass 1, every table module is declared in the root `mod.rs` text and its file exists;
    - a table's `generated.rs` (or `<table>.rs` in single-file mode) and `common.rs` are only overwritten when
      missing or signed; the `mod.rs` files are rewritten without that check;
    - only orphaned generated code is deleted;
    - the root `mod.rs` loses exactly the orphans' declarations.

`Strings` holds the string helpers: trimming of Unicode whitespace (the
`White_Space` set Rust's `str::trim` uses), ASCII case folding, substring
search and replace-all. `Wrappers` and `Errors` hold `Option`,
`Result` and dsync's error kinds.

### Where the model follows the code rather than the prose description

- A `table!` macro's name is the last top-level identifier that is not
  `use`, wherever it stands. Every identifier overwrites the name
  (`parser.rs:201-209`).
- In a column group only a literal token is rejected as a token (a refused
  type fails when its column is completed). Other unexpected
  tokens are skipped (`parser.rs:225-327`).
- `read_only` and `fns` are merged by `apply_defaults` but change nothing
  in `code.rs`.
- A primary key that names no column panics through `expect`
  (`code.rs:305-309`). The model returns `Err(Panic(..))`.
- `code.rs` reads `get_only_necessary_derives`, but `TableOptions` in
  `src/lib.rs` has no such field. The model adds the option, false by
  default, and merges it by "or" as `apply_defaults` merges the other
  boolean flags.
- `ensure_file_signature` panics. `generate_files` treats an unsigned file
  as an error that names the file, and so does the model
  (`NoFileSignature`).

## Model

| member | source | states |
|---|---|---|
| Options.TableOptions.Ignore | src/lib.rs:180-186 | ignore is set; every other option is kept |
| Options.TableOptions.Tsync | src/lib.rs:188-194 | tsync is set; every other option is kept |
| Options.TableOptions.UseAsync | src/lib.rs:196-201 | async is set; every other option is kept |
| Options.TableOptions.DisableSerde | src/lib.rs:203-208 | serde is off; every other option is kept |
| Options.TableOptions.DisableFns | src/lib.rs:210-212 | fns is off; every other option is kept |
| Options.TableOptions.SingleModelFile | src/lib.rs:214-219 | single-file mode is on; every other option is kept |
| Options.TableOptions.AutogeneratedColumns | src/lib.rs:221-226 | the autogenerated columns read back as given; every other option is kept |
| Options.TableOptions.CreateStrType | src/lib.rs:228-233 | the create string type reads back as given; the rest is kept |
| Options.TableOptions.UpdateStrType | src/lib.rs:235-240 | the update string type reads back as given; the rest is kept |
| Options.TableOptions.CreateBytesType | src/lib.rs:242-247 | the create bytes type reads back as given; the rest is kept |
| Options.TableOptions.UpdateBytesType | src/lib.rs:249-254 | the update bytes type reads back as given; the rest is kept |
| Options.TableOptions.SetReadOnly | src/lib.rs:256-258 | read-only reads back as given; the rest is kept |
| Options.TableOptions.ApplyDefaults | src/lib.rs:261-282 | optional settings take this table's value when present, otherwise the default's; boolean flags are the "or" of both; the four string and bytes types come from the defaults |
| Options.DefaultTableOptions | src/lib.rs:285-303 | serde and fns are on; every other flag is off; no optional setting is present; the string types are `String` and the bytes types `Vec<u8>` |
| Options.GenerationConfig.Table | src/lib.rs:341-356 | the table is read-only iff a prefix or suffix matches, the defaults say so, or its own options say so; a configured table gets its options merged with the defaults |
| OptionsFacts.StringLifetimeMatchesSpelling | src/lib.rs:42-57 | a string type needs a lifetime iff it is not `String`, iff its spelling mentions `'a` |
| OptionsFacts.BytesLifetimeMatchesSpelling | src/lib.rs:74-89 | a bytes type needs a lifetime iff it is not `Vec<u8>`, iff its spelling mentions `'a` |
| OptionsFacts.ApplyDefaultsToItself | src/lib.rs:261-282 | merging a table's options with themselves changes nothing |
| OptionsFacts.ApplyDefaultsIdempotent | src/lib.rs:261-282 | merging with the same defaults twice equals merging once |
| OptionsFacts.UnconfiguredTableGetsDefaults | src/lib.rs:341-356 | a table with no options of its own gets exactly the defaults, made read-only when an affix matches |
| Structs.StructType.Format | crates/lib/src/code.rs:17-44 | the identifier is the table's struct name with the kind's prefix and suffix |
| CodeFacts.StructIdentifiersDistinct | crates/lib/src/code.rs:17-44 | the Read, Update and Create identifiers of one table are pairwise distinct |
| Code.Derives | crates/lib/src/code.rs:123-157 | the list always starts with Debug and Clone |
| Code.DerivesHas | crates/lib/src/code.rs:123-157 | a trait is in the list iff its condition holds; Debug and Clone always are |
| Code.PushDerives | crates/lib/src/code.rs:123-157 | the step-by-step pushes produce exactly `Derives` |
| Code.DeriveList | crates/lib/src/code.rs:123-157 | the list starts with Debug and Clone, and a trait is in it iff it is wanted for the struct's kind, the table and the options |
| CodeFacts.DeriveListConditions | crates/lib/src/code.rs:123-157 | Serialize/Deserialize iff serde; Queryable iff not only-necessary or Read; Insertable iff not only-necessary or Create; Selectable iff Read; Identifiable and Associations iff Read with foreign keys; AsChangeset iff some field is not a primary key |
| Code.DieselAttrFor | crates/lib/src/code.rs:233-267 | the attribute names the table; only the Read struct carries the primary key columns and one `belongs_to` per foreign key, the other structs carry neither |
| Code.BelongsTo | crates/lib/src/code.rs:235-246 | one `belongs_to` entry per foreign key, in order, with the table name in Pascal case |
| Code.Struct.constructor | crates/lib/src/code.rs:77-93 | identifier and options come from the kind and the table; the struct is rendered at once |
| Code.Struct.AttrDerive | crates/lib/src/code.rs:123-157 | the derives are `DeriveList` of the struct's kind, table and options |
| Code.Struct.Render | crates/lib/src/code.rs:228-290 | has_fields is whether any field is kept; the code is empty iff there are no fields |
| Code.Keeps | crates/lib/src/code.rs:168-185 | Read keeps every column, Update drops the primary-key columns, Create drops the autogenerated ones |
| Code.BaseType | crates/lib/src/code.rs:188-194 | `Option<T>` for a nullable column, otherwise `T` with every `i` replaced by `u` for an unsigned column, otherwise `T` |
| Code.FieldFor | crates/lib/src/code.rs:186-224 | the field has the column's name and base type; it is optional only in Update, for a non-key or autogenerated column |
| Code.FieldsOf | crates/lib/src/code.rs:164-226 | the fields of the kept columns, in column order |
| Code.Fields | crates/lib/src/code.rs:164-226 | the fields of the table's own columns |
| Code.RenderedStructFor | crates/lib/src/code.rs:228-290 | no code when there are no fields; otherwise the tsync flag, the derive list, the diesel attribute (table name, keys and `belongs_to` only for Read), the identifier and the fields |
| Code.FindColumn | crates/lib/src/code.rs:305-309 | None iff no column has the name; a found column has that name |
| Code.FindColumnFirst | crates/lib/src/code.rs:305-309 | the column found is the first one with that name |
| Code.PrimaryKeyNameAndType | crates/lib/src/code.rs:301-313 | a failure is the `expect` panic message |
| Code.PrimaryKeyPairs | crates/lib/src/code.rs:301-313 | Ok iff every primary key names a column, and then one (name, type) pair per key, in key order, with that column's type |
| Code.ParamDecls | crates/lib/src/code.rs:315-324 | one `param_NAME: TYPE` per (name, type) pair, in order |
| Code.ParamFilters | crates/lib/src/code.rs:325-335 | one `filter(NAME.eq(param_NAME))` per pair, in order |
| Code.ItemIdParams | crates/lib/src/code.rs:315-324 | the parameter declarations joined by `, ` |
| Code.ItemIdFilters | crates/lib/src/code.rs:325-335 | the filter calls joined by `.` |
| Code.KeyParamsAndFilters | crates/lib/src/code.rs:301-335 | when every key names a column: the parameter list is `param_KEY: TYPE` per primary key, in key order, with the type of the key's column, joined by `, `; the filter chain is `filter(KEY.eq(param_KEY))` per key joined by `.` |
| Code.BuildTableFns | crates/lib/src/code.rs:293-482 | the emitted blocks are those `TableFnsFor` selects from the create and update structs' has_fields |
| Code.TableFnsFor | crates/lib/src/code.rs:293-482 | a key naming no column is the panic error; otherwise the parameter list, the filter chain and the blocks: pagination struct, impl, create, read, paginate, update only when the Update struct has fields, delete, closing brace |
| Code.TableCodeFor | crates/lib/src/code.rs:534-553 | the Read, Create and Update structs as rendered, and the functions built from whether Create and Update have fields |
| Code.GenerateForTable | crates/lib/src/code.rs:534-553 | the table's code is `TableCodeFor`, the three structs and the functions |
| CodeFacts.FieldsOfAppend | crates/lib/src/code.rs:164-185 | field selection distributes over concatenation of columns |
| CodeFacts.FieldsOfMembership | crates/lib/src/code.rs:164-185 | a field is present iff some kept column yields it |
| CodeFacts.ReadKeepsEveryColumn | crates/lib/src/code.rs:164-218 | the Read struct has one field per column, in order, never optional |
| CodeFacts.OptionalityOfFields | crates/lib/src/code.rs:210-217 | a field is optional iff the struct is Update |
| CodeFacts.UpdateAndCreateFieldNames | crates/lib/src/code.rs:164-185 | Update has a field iff a non-key column has that name; Create has one iff a non-autogenerated column has it |
| CodeFacts.NullableUpdateFieldIsDoublyOptional | crates/lib/src/code.rs:188-217 | a nullable non-key column becomes `Option<Option<T>>` in Update |
| CodeFacts.UnsignedColumnType | crates/lib/src/code.rs:188-194 | an unsigned column's type has every `i` replaced by `u` |
| CodeFacts.RenderedEmptyIffNoFields | crates/lib/src/code.rs:283-289 | a struct renders empty iff it has no fields, and then derives no AsChangeset |
| CodeFacts.TableFnsShape | crates/lib/src/code.rs:293-482 | with valid keys the functions are pagination, impl, create, read and paginate, then update iff the update struct has fields, then delete and the closing brace |
| CodeFacts.MissingPrimaryKeyColumnFails | crates/lib/src/code.rs:305-309 | a key naming no column makes the table's code fail with the panic message |
| CodeFacts.MultiplePrimaryKeysStructs | crates/lib/src/code.rs:164-185 | a table with a two-column key: Update has only the non-key field; Read derives AsChangeset |
| CodeFacts.UsersKeyColumns | crates/lib/src/code.rs:301-313 | the two key columns are found in key order with their types |
| CodeFacts.UsersItemIdParams | crates/lib/src/code.rs:315-324 | the two keys become `param_name: String, param_address: String` |
| CodeFacts.UsersItemIdFilters | crates/lib/src/code.rs:325-335 | the two keys become a chain of two `filter(..eq(param_..))` calls |
| CodeFacts.MultiplePrimaryKeysFns | crates/lib/src/code.rs:293-482 | the full function list for the two-key table |
| CodeFacts.KeyOnlyTableStructs | crates/lib/src/code.rs:283-289 | a table made only of key columns has an empty Update struct and no AsChangeset on Read |
| CodeFacts.KeyOnlyTableFns | crates/lib/src/code.rs:452-464 | such a table gets no update function |
| Parser.SchemaTypeToRustType | crates/lib/src/parser.rs:403-487 | the lookup is on the lower-cased name; refused types are errors; known types map to their Rust type; any other type is a path under the schema's `sql_types` with its case kept |
| Parser.StripQuotes | crates/lib/src/parser.rs:389-391 | one pair of enclosing double quotes is removed; anything else is unchanged |
| Parser.ParseDieselAttrGroup | crates/lib/src/parser.rs:361-394 | Some iff the group is bracketed and starts with identifier, `=`, literal; the result is that name and the unquoted literal |
| Parser.ColumnStep | crates/lib/src/parser.rs:225-327 | a step fails only on a literal, or on a comma that completes a column (name and type both set) whose type is refused, such as `inet` or `cidr`; a comma after an incomplete column is skipped; it adds at most one column and keeps those already found |
| Parser.HandleColumnGroup | crates/lib/src/parser.rs:225-327 | the loop over a column group computes `ParseColumnGroup` |
| Parser.ParseColumnGroup | crates/lib/src/parser.rs:225-327 | the column scan from empty slots; a column left partly defined is the partial-column error; otherwise the columns found |
| Parser.IdentNames | crates/lib/src/parser.rs:218-224 | the key names are taken from the identifiers of the group |
| Parser.ParseTableMacro | crates/lib/src/parser.rs:342-353 | a parsed table's struct name is its name in Pascal case; it has no foreign keys and no code yet |
| Parser.HandleTableGroup | crates/lib/src/parser.rs:210-332 | a delimited group is handled as the fold's table step does |
| Parser.HandleTableMacro | crates/lib/src/parser.rs:168-354 | the loop over a `table!` macro computes `ParseTableMacro` |
| Parser.HandleJoinableMacro | crates/lib/src/parser.rs:127-165 | the loop over a `joinable!` macro computes `ParseJoinMacro` |
| Parser.ParseJoinMacro | crates/lib/src/parser.rs:127-165 | the join scan, then a missing first table, second table or column, checked in that order, each with its own error |
| Parser.AttachJoin | crates/lib/src/parser.rs:97-112 | a join never changes the number of tables |
| Parser.AddForeignKey | crates/lib/src/parser.rs:97-112 | the loop that finds the join's table computes `AttachJoin` |
| Parser.CollectStep | crates/lib/src/parser.rs:77-115 | a macro without a path is an error; `table` adds the parsed table unless it is ignored; `joinable` attaches the join; anything else is skipped |
| Parser.CollectTables | crates/lib/src/parser.rs:76-117 | the items are handled in order and the first error stops the loop |
| Parser.GenerateFrom | crates/lib/src/parser.rs:119-121 | each table in turn gets its own generated code; the first failure ends the run |
| Parser.ParseAndGenerate | crates/lib/src/parser.rs:68-124 | the collected tables, each with its generated code |
| Parser.GenerateAll | crates/lib/src/parser.rs:117-121 | the generation loop computes `GenerateFrom` |
| Parser.ParseAndGenerateCode | crates/lib/src/parser.rs:68-124 | the item loop computes `ParseAndGenerate` |
| ParserFacts.TypeLookupIgnoresCase | crates/lib/src/parser.rs:403-407 | two spellings of a known or refused type that agree up to ASCII case translate alike |
| ParserFacts.Int4InAnyCase | crates/lib/src/parser.rs:403-487 | `Int4` and `int4` both become `i32` |
| ParserFacts.RefusedTypesInAnyCase | crates/lib/src/parser.rs:405-407 | `Unsigned`, `INET` and `Cidr` are refused |
| ParserFacts.CustomTypeKeepsItsCase | crates/lib/src/parser.rs:480-485 | an unknown type keeps its original case under `sql_types` |
| ParserFacts.AttrGroupRoundTrip | crates/lib/src/parser.rs:361-394 | `#[key = "value"]` parses back to the key and the value |
| ParserFacts.AttrGroupNeedsBrackets | crates/lib/src/parser.rs:362-364 | a group not in square brackets is never an attribute |
| ParserFacts.ScanJoinAppend | crates/lib/src/parser.rs:133-152 | scanning a join body in two parts equals scanning it whole |
| ParserFacts.JoinRoundTrip | crates/lib/src/parser.rs:127-165 | `t1 -> t2 (col)` parses back to the two tables and the column |
| ParserFacts.JoinGroupTooEarly | crates/lib/src/parser.rs:141-149 | a group before the second table name is an error |
| ParserFacts.LastJoinGroupWins | crates/lib/src/parser.rs:141-152 | a later group replaces the join column text |
| ParserFacts.JoinMissingParts | crates/lib/src/parser.rs:154-164 | each missing part has its own error message |
| ParserFacts.AttachJoinFirstMatch | crates/lib/src/parser.rs:97-112 | the foreign key is appended to the first table with the join's name only |
| ParserFacts.AttachJoinNoMatch | crates/lib/src/parser.rs:97-112 | a join whose table was not collected changes nothing |
| ParserFacts.AttachJoinKeepsTables | crates/lib/src/parser.rs:97-112 | a join changes nothing but foreign keys |
| ParserFacts.IgnoredTablesNeverCollected | crates/lib/src/parser.rs:88-96 | no ignored table is ever collected |
| ParserFacts.ForwardJoinIsDropped | crates/lib/src/parser.rs:97-112 | a join seen before its table adds no foreign key |
| ParserFacts.MacroWithoutIdentifierFails | crates/lib/src/parser.rs:78-85 | a macro with an empty path stops parsing with its error |
| ParserFacts.GenerateFromFails | crates/lib/src/parser.rs:117-121 | generation succeeds iff every table's code does |
| ParserFacts.GenerateFromLength | crates/lib/src/parser.rs:117-121 | generation keeps every table and their order |
| ParserFacts.GenerateFromStoresCode | crates/lib/src/parser.rs:117-121 | each table gets exactly its own generated code |
| ColumnFacts.ScanColumnsAppend | crates/lib/src/parser.rs:225-327 | scanning a column group in two parts equals scanning it whole |
| ColumnFacts.ScanTableAppend | crates/lib/src/parser.rs:168-338 | scanning a table body in two parts equals scanning it whole |
| ColumnFacts.StripQuotesOfQuoted | crates/lib/src/parser.rs:389-391 | a quoted value is unquoted exactly |
| ColumnFacts.AttrScan | crates/lib/src/parser.rs:239-251 | a `#[sql_name = ".."]` attribute sets the column's actual name |
| ColumnFacts.NameScan | crates/lib/src/parser.rs:252-262 | `name ->` fills the field-name slot |
| ColumnFacts.OpenScan | crates/lib/src/parser.rs:252-262 | `Nullable<` and `Unsigned<` set their flags |
| ColumnFacts.WrapperScan | crates/lib/src/parser.rs:252-262 | the wrappers of a declaration set exactly its flags |
| ColumnFacts.PathScan | crates/lib/src/parser.rs:252-262 | a `::` type path fills the type slot with its last segment |
| ColumnFacts.CloseScan | crates/lib/src/parser.rs:263-308 | closing `>` tokens change nothing |
| ColumnFacts.HeadScan | crates/lib/src/parser.rs:239-262 | the head of a declaration fills the name and flag slots |
| ColumnFacts.TailScan | crates/lib/src/parser.rs:252-308 | the type path and the closing `>` tokens fill only the type slot, so the comma decides the outcome |
| ColumnFacts.CommaScan | crates/lib/src/parser.rs:263-308 | the comma after a complete declaration emits its column and resets the slots |
| ColumnFacts.DeclScan | crates/lib/src/parser.rs:225-308 | one declaration emits exactly its column |
| ColumnFacts.DeclsScan | crates/lib/src/parser.rs:225-308 | a list of declarations emits exactly their columns |
| ColumnFacts.ColumnGroupRoundTrip | crates/lib/src/parser.rs:225-327 | the tokens of well-formed declarations parse back to their columns |
| ColumnFacts.ColumnsOf | crates/lib/src/parser.rs:263-308 | one column per declaration |
| ColumnFacts.ScanColumnsFailsOnLiteral | crates/lib/src/parser.rs:310-314 | a literal anywhere in the group fails the scan |
| ColumnFacts.LiteralInColumnGroupFails | crates/lib/src/parser.rs:310-314 | a literal anywhere in a column group is an error |
| ColumnFacts.TrailingIdentIsPartial | crates/lib/src/parser.rs:318-327 | a group ending in an unfinished declaration is an error, the partial-column error when the rest scans |
| ColumnFacts.KeyTokensNames | crates/lib/src/parser.rs:218-224 | the key group's identifiers are the primary key names |
| ColumnFacts.SkipScan | crates/lib/src/parser.rs:184-191 | while skipping to `;` nothing changes |
| ColumnFacts.UseScan | crates/lib/src/parser.rs:201-209 | a `use ..;` line changes nothing |
| ColumnFacts.AttributeScan | crates/lib/src/parser.rs:194-216 | a `#[..]` attribute on the table changes nothing |
| ColumnFacts.DeclarationScan | crates/lib/src/parser.rs:201-327 | `name (keys) { columns }` sets the name, the keys and the columns |
| ColumnFacts.TableRoundTrip | crates/lib/src/parser.rs:168-354 | the tokens of a table with use lines and attributes parse back to that table |
| ColumnFacts.NamelessScan | crates/lib/src/parser.rs:201-209 | without identifiers no name is ever set |
| ColumnFacts.TableWithoutNameFails | crates/lib/src/parser.rs:342-346 | a table body without an identifier is an error |
| ColumnFacts.LastIdentNamesTable | crates/lib/src/parser.rs:201-209 | the last identifier names the table |
| ColumnFacts.TopLevelLiteralFails | crates/lib/src/parser.rs:334-338 | a literal at the top level of a table body is the invalid-token error |
| MarkedFiles.UseStmt | crates/lib/src/file.rs:23-25 | the declaration looked for is `pub use NAME;` |
| MarkedFiles.ModStmt | crates/lib/src/file.rs:27-29 | the declaration looked for is `pub mod NAME;` |
| MarkedFiles.Appended | crates/lib/src/file.rs:31-47 | the trimmed text, a newline when that is not empty, the declaration and a final newline |
| MarkedFiles.Ensured | crates/lib/src/file.rs:71-81 | the text itself when it contains the declaration, otherwise the text with the declaration appended |
| MarkedFiles.Removed | crates/lib/src/file.rs:49-69 | when the declaration occurs, every occurrence deleted and the result trimmed; otherwise the text itself |
| MarkedFiles.Signed | crates/lib/src/file.rs:83-92 | the text is empty or starts with the generator's signature |
| MarkedFiles.MarkedFile.HasUseStmt | crates/lib/src/file.rs:23-25 | the text contains `pub use NAME;` |
| MarkedFiles.MarkedFile.HasModStmt | crates/lib/src/file.rs:27-29 | the text contains `pub mod NAME;` |
| MarkedFiles.MarkedFile.HasFileSignature | crates/lib/src/file.rs:83-92 | the file's text is signed |
| MarkedFiles.MarkedFile.New | crates/lib/src/file.rs:11-21 | a missing file opens empty and signed; an existing one opens with its contents; a new file is unmodified |
| MarkedFiles.MarkedFile.AddUseStmt | crates/lib/src/file.rs:31-38 | the contents become the trimmed text plus the declaration, which is then present |
| MarkedFiles.MarkedFile.AddModStmt | crates/lib/src/file.rs:40-47 | the contents become the trimmed text plus the declaration, which is then present |
| MarkedFiles.MarkedFile.RemoveUseStmt | crates/lib/src/file.rs:49-58 | every occurrence is removed and the text trimmed; an absent declaration leaves the text untouched |
| MarkedFiles.MarkedFile.RemoveModStmt | crates/lib/src/file.rs:60-69 | every occurrence is removed and the text trimmed; an absent declaration leaves the text untouched |
| MarkedFiles.MarkedFile.EnsureUseStmt | crates/lib/src/file.rs:71-75 | the declaration is present afterwards; an existing one leaves the text untouched |
| MarkedFiles.MarkedFile.EnsureModStmt | crates/lib/src/file.rs:77-81 | the declaration is present afterwards; an existing one leaves the text untouched |
| MarkedFiles.MarkedFile.EnsureFileSignature | crates/lib/src/file.rs:83-98 | Ok iff the file is empty or starts with the signature; otherwise an error naming the file |
| MarkedFiles.MarkedFile.ChangeFileContents | src/lib.rs:521 | the contents are replaced |
| MarkedFileFacts.StatementsAreSolid | crates/lib/src/file.rs:23-29 | declarations start and end with non-blank characters |
| MarkedFileFacts.TrimKeepsSolid | crates/lib/src/file.rs:31-47 | trimming keeps every such declaration present |
| MarkedFileFacts.AppendedShape | crates/lib/src/file.rs:31-47 | after an add the text has the declaration, starts with the old trimmed text and ends in a newline |
| MarkedFileFacts.AppendedKeepsSolid | crates/lib/src/file.rs:31-47 | adding a declaration keeps every existing declaration |
| MarkedFileFacts.EnsuredContains | crates/lib/src/file.rs:71-81 | after an ensure the declaration is present |
| MarkedFileFacts.EnsureIdempotent | crates/lib/src/file.rs:71-81 | ensuring twice equals ensuring once |
| MarkedFileFacts.EnsuredKeepsSolid | crates/lib/src/file.rs:71-81 | ensuring keeps every existing declaration |
| MarkedFileFacts.AppendedKeepsSignature | crates/lib/src/file.rs:31-47 | adding to a signed file keeps it signed unless it was blank |
| MarkedFileFacts.ReplaceAllShrinks | crates/lib/src/file.rs:49-69 | deleting occurrences never lengthens the text and shortens it when one occurs |
| MarkedFileFacts.ReplaceAllWithoutOccurrence | crates/lib/src/file.rs:49-69 | deleting an absent pattern changes nothing |
| MarkedFileFacts.RemovedShrinks | crates/lib/src/file.rs:49-69 | a removal of a present declaration shortens the text; of an absent one changes nothing |
| MarkedFileFacts.RemovalCanRecreate | crates/lib/src/file.rs:60-69 | one pass of deletion can leave the declaration present: `pub mpub mod x;od x;` becomes `pub mod x;` |
| MarkedFileFacts.BuildTableMod | src/lib.rs:526-531 | a table's new `mod.rs` holds the `generated` module and its glob use |
| MarkedFileFacts.TableModRoundTrip | src/lib.rs:578-594 | pass 2's two removals undo pass 1's table `mod.rs`, leaving it empty |
| Sync.ChangeOf | src/lib.rs:413-421 | a file's change is Modified iff its contents differ from what was loaded, never Deleted |
| Sync.FileChangeFrom | src/lib.rs:413-421 | a marked file's change is Modified iff it is modified, otherwise Unchanged |
| Sync.Disk.IsEmptyDir | src/lib.rs:597-602 | no file and no directory lies strictly below the directory |
| Sync.Disk.Read | crates/lib/src/file.rs:11-21 | a read succeeds iff the path is a file, and yields its contents |
| Sync.Open | crates/lib/src/file.rs:11-21 | a directory cannot be opened; an existing file is read; a missing one is created empty |
| Sync.ModuleName | src/lib.rs:427-429 | the module name has no upper-case ASCII letters |
| Sync.TableDir | src/lib.rs:495-499 | the table's directory lies under `out`: it is `out` itself exactly in single-file mode, otherwise `out` plus the table's module name |
| Sync.TableFile | src/lib.rs:495-517 | in single-file mode `out/NAME.rs`, otherwise `out/MODULE/generated.rs` |
| Sync.CommonText | src/lib.rs:463-480 | `common.rs` starts with the signature line |
| Sync.OpenMarked | crates/lib/src/file.rs:11-21 | opening gives a fresh unmodified marked file with `Open`'s contents, or `Open`'s error |
| Sync.HasTableFor | src/lib.rs:564-566 | some generated table's module name equals the entry name up to ASCII case |
| Sync.FindTable | src/lib.rs:564-569 | found iff some generated table's module name matches the entry up to ASCII case |
| Sync.CommonStep | src/lib.rs:460-485 | with either `once_*` option: open `common.rs`, refuse an unsigned one, write the signature line with the common text, report the change and declare `common` in the root `mod.rs`; otherwise nothing |
| Sync.Pass1Step | src/lib.rs:488-534 | refuse `common` under `once_common_structs`; create the table's directory, refuse a plain file in its place; open the target and the table's `mod.rs`; refuse an unsigned target; write the code; declare `generated` and `generated::*` unless in single-file mode; declare the module in the root `mod.rs` |
| Sync.Pass1 | src/lib.rs:488-534 | the tables in order; the first error stops the pass |
| Sync.IsOrphan | src/lib.rs:541-569 | an entry is an orphan when it is a directory holding a signed `generated.rs` file that no generated table's module name matches up to ASCII case |
| Sync.PruneTableMod | src/lib.rs:578-594 | when the table's `mod.rs` exists: remove the two declarations; delete the file when only blanks are left, otherwise write and report it |
| Sync.Pass2Step | src/lib.rs:540-608 | an orphan loses its `generated.rs` (reported deleted), its `mod.rs` is pruned, its directory is removed when empty, and its module is removed from the root `mod.rs`; any other entry is left alone |
| Sync.Pass2 | src/lib.rs:537-609 | the entries in order; the first error stops the pass |
| Sync.Prepare | src/lib.rs:445-485 | a plain file in place of the output directory is an error; otherwise the directory is made, the root `mod.rs` opened and the `common.rs` step taken |
| Sync.Generate | src/lib.rs:434-615 | setup, pass 1, pass 2, then the root `mod.rs` written and reported last |
| Sync.SyncCommon | src/lib.rs:460-485 | writing `common.rs` and declaring it follows `CommonStep`, errors included |
| Sync.SyncTable | src/lib.rs:488-534 | one table of pass 1 follows `Pass1Step`, errors included |
| Sync.PruneTableModFrame | src/lib.rs:578-594 | pruning a table's `mod.rs` does not depend on the root `mod.rs` text and leaves it alone |
| Sync.PruneTableModTouches | src/lib.rs:578-594 | pruning a table's `mod.rs` changes no other file and no directory |
| Sync.PruneTableModFile | src/lib.rs:578-594 | the orphan's `mod.rs` handling follows `PruneTableMod` |
| Sync.PruneEntry | src/lib.rs:537-609 | one entry of pass 2 follows `Pass2Step`, errors included |
| Sync.GenerateFiles | src/lib.rs:434-615 | the whole run yields exactly `Generate`'s changes and disk, or its error |
| SyncFacts.Pass1RefusesCommon | src/lib.rs:489-491 | a successful pass 1 with the common-structs option has no table named `common` |
| SyncFacts.Pass1OverwritesOnlySigned | src/lib.rs:515-522 | a pass-1 step that succeeds found the table's target file missing or signed |
| SyncFacts.CommonOverwritesOnlySigned | src/lib.rs:460-462 | the `common.rs` step succeeds iff the file is missing or signed; otherwise the error names the file |
| SyncFacts.GenerateRefusesCommon | src/lib.rs:489-491 | with that option, a table named `common` makes the run fail |
| SyncFacts.Pass1StepEffect | src/lib.rs:494-533 | one table keeps all files, creates its directory and target file, declares its module, keeps existing declarations |
| SyncFacts.Pass1DeclaresEveryModule | src/lib.rs:488-534 | after pass 1 every table's module is declared and every target file exists; no file is lost |
| SyncFacts.Pass2StepFrame | src/lib.rs:540-608 | an entry changes only its own `generated.rs`, `mod.rs` and directory, and only when it is an orphan |
| SyncFacts.Pass2StepOrphan | src/lib.rs:549-608 | `generated.rs` is deleted iff the entry is an orphan; then its module is removed from the root `mod.rs` and the deletion reported |
| SyncFacts.Pass2StepKeepsOtherOrphans | src/lib.rs:540-608 | handling one entry does not change whether another is an orphan |
| SyncFacts.Pass2Frame | src/lib.rs:540-608 | files outside unclaimed module directories are untouched by pass 2 |
| SyncFacts.Pass2KeepsClaimedTables | src/lib.rs:564-569 | a table's own `generated.rs` and `mod.rs` survive pass 2 unchanged |
| SyncFacts.Pass2KeepsTopLevelFiles | src/lib.rs:545-547 | files directly in the output directory, single-file models included, are never pruned |
| SyncFacts.Pass2NeverRestoresGenerated | src/lib.rs:540-608 | pass 2 never creates a `generated.rs` |
| SyncFacts.Pass2RemovesOrphans | src/lib.rs:571-576 | every orphan among the entries loses its `generated.rs` |
| SyncFacts.OrphansOfAfterStep | src/lib.rs:540-608 | handling one entry does not change which later entries are orphans |
| SyncFacts.Pass2RootModRs | src/lib.rs:607-608 | the root `mod.rs` after pass 2 is the one before with the orphans' declarations removed in entry order |

## Left out

- Rust syntax and token trees (`syn`, `proc_macro2`) are not modelled. Macro items and tokens are datatypes (`Item`, `Token`).
- `StreamText` approximates `TokenStream::to_string` spacing for the join column text.
- Lower-casing is ASCII only. Rust's `to_lowercase` is Unicode-aware; schema type names are ASCII.
- Pascal and snake case conversion (the `heck` crate) is not part of this model. Both are function parameters.
- The template text of generated code is not modelled:
  - `code.rs` is modelled as the choice of fields, derives and function blocks (`RenderedStruct`, `FnBlock`), not as the strings;
  - `build_imports` and `attr_tsync` are left out;
  - the common structs, the connection type and the generated code of each table are parameters of `Generate`.
- `generate_code` and the reading of the schema file are not modelled.
  - `Generate` starts from the generated tables, given by name and code text.
- File-system I/O is the `Disk` value. The order of `read_dir` is the `entries` parameter.
- The file-system errors of `create_dir`, `write`, `remove_file`, `remove_dir` and `read_dir` are not modelled.
  - `Open` fails only on a directory.
  - Non-UTF-8 file names, which make `to_str` fail, cannot occur: names are strings.
- The command-line front end, `error.rs`'s formatting and backtraces are not modelled.
- `tsync` and `async` are Cargo features. The model treats them as always compiled in.
- A literal of a lone `"` would make the slicing panic. `StripQuotes` needs at least two characters and keeps such a literal as it is.
- `MarkedFile::write`, `delete` and `get_file_contents` are disk effects. They appear in `Sync` as `Disk.Write`, `Disk.Remove` and reads of `fileContents`.
- MarkedFiles.MarkedFile.IsModified: the version of `crates/lib/src/file.rs` modelled here has neither
  `is_modified` nor `change_file_contents`. The model takes "modified" to mean that the text differs from what
  was loaded. A flag set by every add or remove would differ when edits cancel out: with `once_connection_type`,
  no tables, an empty root `mod.rs` and an orphan directory `common`, the `common` declaration is added and
  removed again, and the model reports the root `mod.rs` Unchanged where a flag would report Modified.
- Sync.ChangeOf: Modified versus Unchanged follows the stand-in for `is_modified` above.
- Sync.Generate: a failed run returns only its error, not the disk it leaves behind. The source has by then
  made every earlier write: the files of the tables before the failing one, and for the failing table its
  directory and (before the signature check at `src/lib.rs:520`) an empty `mod.rs` created by opening it;
  the root `mod.rs`, written last, is not updated, so modules written before the failure stay undeclared.
- Sync.GenerateFiles: as `Generate`, a failed run yields only the error; its partial disk is not returned.
- Sync.Disk: files and directories are not required to be disjoint paths, and `entries` is not tied to the
  directory's contents. A path that is both a directory and a file named `generated.rs` makes `Pass2Step`
  fail in `Open`, where the source skips it through `is_file()`; no lemma depends on this, and the pass 2
  lemmas speak only of the given entries.
- `SyncFacts.Pass2RootModRs` assumes the directory entries are distinct, as `read_dir` yields them.
