/** Per-table generation options and their resolution against the global
    configuration (src/lib.rs: StringType, BytesType, TableOptions,
    GenerationConfig::table). */
module Options {
  import opened Wrappers
  import opened Strings

  /** Which Rust type the Create/Update structs use for text columns. */
  datatype StringType = String | Str | Cow {

    function AsStr(): string {
      match this
      case String => "String"
      case Str => "&'a str"
      case Cow => "Cow<'a, str>"
    }

    function GetLifetime(): string {
      match this
      case String => ""
      case Str => "'a"
      case Cow => "'a"
    }
  }

  /** Which Rust type the Create/Update structs use for binary columns. */
  datatype BytesType = Vec | Slice | Cow {

    function AsStr(): string {
      match this
      case Vec => "Vec<u8>"
      case Slice => "&'a [u8]"
      case Cow => "Cow<'a, [u8]>"
    }

    function GetLifetime(): string {
      match this
      case Vec => ""
      case Slice => "'a"
      case Cow => "'a"
    }
  }

  /** Options for one table. `onlyNecessaryDerives` is the option that the
      derive list of code.rs consults through `get_only_necessary_derives`. */
  datatype TableOptions = TableOptions(
    ignore: Option<bool>,
    autogeneratedColumns: Option<seq<string>>,
    tsync: Option<bool>,
    useAsync: Option<bool>,
    useSerde: bool,
    fns: bool,
    createStrType: StringType,
    updateStrType: StringType,
    createBytesType: BytesType,
    updateBytesType: BytesType,
    singleModelFile: bool,
    readOnly: bool,
    onlyNecessaryDerives: bool)
  {
    function GetIgnore(): bool { ignore.GetOr(false) }
    function GetTsync(): bool { tsync.GetOr(false) }
    function GetAsync(): bool { useAsync.GetOr(false) }
    function GetSerde(): bool { useSerde }
    function GetFns(): bool { fns }
    function GetCreateStrType(): StringType { createStrType }
    function GetUpdateStrType(): StringType { updateStrType }
    function GetCreateBytesType(): BytesType { createBytesType }
    function GetUpdateBytesType(): BytesType { updateBytesType }
    function GetAutogeneratedColumns(): seq<string> { autogeneratedColumns.GetOr([]) }
    function GetReadonly(): bool { readOnly }
    function GetOnlyNecessaryDerives(): bool { onlyNecessaryDerives }

    // Builders: each sets one option and keeps every other one.

    function Ignore(): (r: TableOptions)
      ensures r.GetIgnore() && r.(ignore := ignore) == this
    {
      this.(ignore := Some(true))
    }

    function Tsync(): (r: TableOptions)
      ensures r.GetTsync() && r.(tsync := tsync) == this
    {
      this.(tsync := Some(true))
    }

    function UseAsync(): (r: TableOptions)
      ensures r.GetAsync() && r.(useAsync := useAsync) == this
    {
      this.(useAsync := Some(true))
    }

    function DisableSerde(): (r: TableOptions)
      ensures !r.GetSerde() && r.(useSerde := useSerde) == this
    {
      this.(useSerde := false)
    }

    function DisableFns(): (r: TableOptions)
      ensures !r.GetFns() && r.(fns := fns) == this
    {
      this.(fns := false)
    }

    function SingleModelFile(): (r: TableOptions)
      ensures r.singleModelFile && r.(singleModelFile := singleModelFile) == this
    {
      this.(singleModelFile := true)
    }

    function AutogeneratedColumns(cols: seq<string>): (r: TableOptions)
      ensures r.GetAutogeneratedColumns() == cols
      ensures r.(autogeneratedColumns := autogeneratedColumns) == this
    {
      this.(autogeneratedColumns := Some(cols))
    }

    function CreateStrType(t: StringType): (r: TableOptions)
      ensures r.GetCreateStrType() == t && r.(createStrType := createStrType) == this
    {
      this.(createStrType := t)
    }

    function UpdateStrType(t: StringType): (r: TableOptions)
      ensures r.GetUpdateStrType() == t && r.(updateStrType := updateStrType) == this
    {
      this.(updateStrType := t)
    }

    function CreateBytesType(t: BytesType): (r: TableOptions)
      ensures r.GetCreateBytesType() == t && r.(createBytesType := createBytesType) == this
    {
      this.(createBytesType := t)
    }

    function UpdateBytesType(t: BytesType): (r: TableOptions)
      ensures r.GetUpdateBytesType() == t && r.(updateBytesType := updateBytesType) == this
    {
      this.(updateBytesType := t)
    }

    function SetReadOnly(value: bool): (r: TableOptions)
      ensures r.GetReadonly() == value && r.(readOnly := readOnly) == this
    {
      this.(readOnly := value)
    }

    /** Fills every unset option of this record from `other`: an option that
        is set here wins, the boolean switches are on when either record has
        them on, and the string/bytes representations always come from
        `other`. */
    function ApplyDefaults(other: TableOptions): (r: TableOptions)
      ensures r.GetIgnore() == if ignore.Some? then ignore.value else other.GetIgnore()
      ensures r.GetTsync() == if tsync.Some? then tsync.value else other.GetTsync()
      ensures r.GetAsync() == if useAsync.Some? then useAsync.value else other.GetAsync()
      ensures r.GetAutogeneratedColumns()
              == if autogeneratedColumns.Some? then autogeneratedColumns.value else other.GetAutogeneratedColumns()
      ensures r.GetSerde() == (GetSerde() || other.GetSerde())
      ensures r.GetFns() == (GetFns() || other.GetFns())
      ensures r.singleModelFile == (singleModelFile || other.singleModelFile)
      ensures r.GetReadonly() == (GetReadonly() || other.GetReadonly())
      ensures r.GetOnlyNecessaryDerives() == (GetOnlyNecessaryDerives() || other.GetOnlyNecessaryDerives())
      ensures r.GetCreateStrType() == other.GetCreateStrType() && r.GetUpdateStrType() == other.GetUpdateStrType()
      ensures r.GetCreateBytesType() == other.GetCreateBytesType() && r.GetUpdateBytesType() == other.GetUpdateBytesType()
    {
      TableOptions(
        ignore.Or(other.ignore),
        autogeneratedColumns.Or(other.autogeneratedColumns),
        tsync.Or(other.tsync),
        useAsync.Or(other.useAsync),
        useSerde || other.useSerde,
        fns || other.fns,
        other.createStrType,
        other.updateStrType,
        other.createBytesType,
        other.updateBytesType,
        singleModelFile || other.singleModelFile,
        readOnly || other.readOnly,
        onlyNecessaryDerives || other.onlyNecessaryDerives)
    }
  }

  /** `impl Default for TableOptions` */
  function DefaultTableOptions(): (r: TableOptions)
    ensures r.GetSerde() && r.GetFns()
    ensures !r.singleModelFile && !r.GetReadonly() && !r.GetOnlyNecessaryDerives()
    ensures !r.GetIgnore() && !r.GetTsync() && !r.GetAsync() && r.GetAutogeneratedColumns() == []
    ensures r.ignore == None && r.autogeneratedColumns == None && r.tsync == None && r.useAsync == None
    ensures r.GetCreateStrType() == StringType.String && r.GetUpdateStrType() == StringType.String
    ensures r.GetCreateBytesType() == BytesType.Vec && r.GetUpdateBytesType() == BytesType.Vec
  {
    TableOptions(None, None, None, None, true, true,
                 StringType.String, StringType.String, BytesType.Vec, BytesType.Vec,
                 false, false, false)
  }

  /** Generator-wide configuration. */
  datatype GenerationConfig = GenerationConfig(
    tableOptions: map<string, TableOptions>,
    defaultTableOptions: TableOptions,
    connectionType: string,
    schemaPath: string,
    modelPath: string,
    onceCommonStructs: bool,
    onceConnectionType: bool,
    readonlyPrefixes: seq<string>,
    readonlySuffixes: seq<string>)
  {
    /** The name starts with a configured read-only prefix or ends with a
        configured read-only suffix. */
    predicate HasReadonlyAffix(name: string) {
      (exists i :: 0 <= i < |readonlyPrefixes| && StartsWith(name, readonlyPrefixes[i]))
      || (exists i :: 0 <= i < |readonlySuffixes| && EndsWith(name, readonlySuffixes[i]))
    }

    /** The options the generator uses for table `name`. */
    function Table(name: string): (r: TableOptions)
      ensures r.GetReadonly()
              <==> HasReadonlyAffix(name) || defaultTableOptions.GetReadonly()
                   || (name in tableOptions && tableOptions[name].GetReadonly())
      ensures HasReadonlyAffix(name) ==> r.GetReadonly()
      ensures name in tableOptions ==> r.(readOnly := false) == tableOptions[name].ApplyDefaults(defaultTableOptions).(readOnly := false)
    {
      var configured := if name in tableOptions then tableOptions[name] else defaultTableOptions;
      var table := configured.ApplyDefaults(defaultTableOptions);
      if HasReadonlyAffix(name) then table.SetReadOnly(true) else table
    }
  }
}
