/** src/lib.rs: `FileChange` and the decisions `generate_files` takes when it
    reconciles the output directory with the parsed schema.

    The file system is a value, `Disk`: the text of every file and the set
    of directories, keyed by path segments. Reading, writing and deleting
    become updates of that value; everything else the operating system
    does is outside the model. */
module Sync {
  import opened Wrappers
  import opened Errors
  import opened Strings
  import opened Options
  import opened MarkedFiles
  import Schema

  // ---------------------------------------------------------------------
  // File changes

  datatype FileChangeStatus = Unchanged | Modified | Deleted

  datatype FileChange = FileChange(file: seq<string>, status: FileChangeStatus)

  /** The status of a file that was opened with `loaded` and now holds
      `contents`. */
  function ChangeOf(path: seq<string>, loaded: string, contents: string): (r: FileChange)
    ensures r.file == path
    ensures r.status == Modified <==> contents != loaded
    ensures r.status != Deleted
  {
    FileChange(path, if contents != loaded then Modified else Unchanged)
  }

  /** `FileChange::from(&MarkedFile)`: modified exactly when the file is. */
  function FileChangeFrom(f: MarkedFile): (r: FileChange)
    reads f
    ensures r.file == f.path
    ensures r.status == Modified <==> f.IsModified()
    ensures r.status == Unchanged <==> !f.IsModified()
  {
    ChangeOf(f.path, f.loadedContents, f.fileContents)
  }

  // ---------------------------------------------------------------------
  // The file system as a value

  datatype Disk = Disk(files: map<seq<string>, string>, dirs: set<seq<string>>) {

    predicate Exists(path: seq<string>) {
      path in files || path in dirs
    }

    function Read(path: seq<string>): (r: Option<string>)
      ensures r.Some? <==> path in files
      ensures r.Some? ==> r.value == files[path]
    {
      if path in files then Some(files[path]) else None
    }

    function Write(path: seq<string>, contents: string): Disk {
      this.(files := files[path := contents])
    }

    function Remove(path: seq<string>): Disk {
      this.(files := files - {path})
    }

    /** `read_dir(dir).next().is_none()`: nothing lies below `dir`. */
    predicate IsEmptyDir(dir: seq<string>) {
      (forall p :: p in files ==> !(|dir| < |p| && p[..|dir|] == dir))
      && (forall p :: p in dirs ==> !(|dir| < |p| && p[..|dir|] == dir))
    }
  }

  datatype Opened = Opened(disk: Disk, contents: string)

  /** `MarkedFile::new` against the disk: a directory cannot be read, a
      missing file is created empty, an existing one is read. */
  function Open(disk: Disk, path: seq<string>): (r: Result<Opened>)
    ensures r.Err? <==> path in disk.dirs
    ensures r.Err? ==> r.error == IoError(path)
    ensures r.Ok? ==> path in r.value.disk.files && r.value.disk.files[path] == r.value.contents
    ensures r.Ok? && path in disk.files ==> r.value == Opened(disk, disk.files[path])
    ensures r.Ok? && path !in disk.files ==> r.value.contents == "" && r.value.disk == disk.Write(path, "")
  {
    if path in disk.dirs then Err(IoError(path))
    else if path in disk.files then Ok(Opened(disk, disk.files[path]))
    else Ok(Opened(disk.Write(path, ""), ""))
  }

  // ---------------------------------------------------------------------
  // Names and targets

  /** A parsed table together with the text generated for it. */
  datatype GeneratedTable = GeneratedTable(name: string, code: string)

  /** `get_table_module_name`: snake case (a parameter: heck is not part of
      the model), then ASCII lower case. */
  function ModuleName(tableName: string, snake: string -> string): (r: string)
    ensures |r| == |snake(tableName)|
    ensures forall i :: 0 <= i < |r| ==> !('A' <= r[i] <= 'Z')
  {
    ToLower(snake(tableName))
  }

  /** Some generated table's module is named `name`, ignoring ASCII case. */
  predicate HasTableFor(tables: seq<GeneratedTable>, name: string, snake: string -> string) {
    exists k :: 0 <= k < |tables| && EqIgnoreAsciiCase(ModuleName(tables[k].name, snake), name)
  }

  /** The directory a table's code goes to: the output directory itself in
      single-file mode, otherwise a directory named after its module. */
  function TableDir(out: seq<string>, name: string, options: TableOptions, snake: string -> string): (r: seq<string>)
    ensures |out| <= |r| <= |out| + 1 && r[..|out|] == out
    ensures r == out <==> options.singleModelFile
    ensures !options.singleModelFile ==> r[|out|] == ModuleName(name, snake)
  {
    if options.singleModelFile then out else out + [ModuleName(name, snake)]
  }

  /** The file a table's code goes to: `<table name>.rs` in single-file
      mode, otherwise `generated.rs` in the table's directory. */
  function TableFile(out: seq<string>, name: string, options: TableOptions, snake: string -> string): (r: seq<string>)
    ensures options.singleModelFile ==> r == out + [name + ".rs"]
    ensures !options.singleModelFile ==> r == out + [ModuleName(name, snake), "generated.rs"]
  {
    TableDir(out, name, options, snake) + [if options.singleModelFile then name + ".rs" else "generated.rs"]
  }

  const COMMON_TABLE_MESSAGE: string :=
    "Cannot have a table named \"common\" while having option \"once_common_structs\" enabled"

  const OUTPUT_NOT_A_DIRECTORY: string := "Expected output argument to be a directory or non-existent."

  const TABLE_DIR_NOT_A_DIRECTORY: string := "Expected a directory"

  /** The text of `common.rs`: the signature line, the shared structs when
      `once_common_structs` is set, the connection type between newlines
      when `once_connection_type` is set. The two template texts are
      parameters. */
  function CommonText(config: GenerationConfig, commonStructs: string, connectionType: string): (r: string)
    ensures StartsWith(r, Schema.FILE_SIGNATURE + "\n")
  {
    Schema.FILE_SIGNATURE + "\n"
    + (if config.onceCommonStructs then commonStructs else "")
    + (if config.onceConnectionType then "\n" + connectionType + "\n" else "")
  }

  // ---------------------------------------------------------------------
  // The run, as a function of the disk

  /** What a run has done so far: the disk, the text of the root `mod.rs`
      (held in memory until the end) and the reported changes. */
  datatype Progress = Progress(disk: Disk, modRs: string, changes: seq<FileChange>)

  /** The `common.rs` step, taken when either `once_*` option is set. */
  function CommonStep(p: Progress, out: seq<string>, config: GenerationConfig, commonStructs: string,
                      connectionType: string): Result<Progress>
  {
    if !(config.onceCommonStructs || config.onceConnectionType) then Ok(p)
    else
      var path := out + ["common.rs"];
      var read :- Open(p.disk, path);
      if !Signed(read.contents) then Err(NoFileSignature(path))
      else
        var text := CommonText(config, commonStructs, connectionType);
        Ok(Progress(read.disk.Write(path, text), Ensured(p.modRs, ModStmt("common")),
                    p.changes + [ChangeOf(path, read.contents, text)]))
  }

  /** Pass 1 for one table: refuse the reserved name, make the directory,
      overwrite the signed target file, declare `generated` in the table's
      own `mod.rs` (unless in single-file mode) and the table's module in
      the root `mod.rs`. */
  function Pass1Step(p: Progress, t: GeneratedTable, out: seq<string>, config: GenerationConfig,
                     snake: string -> string): Result<Progress>
  {
    if config.onceCommonStructs && t.name == "common" then Err(Other(COMMON_TABLE_MESSAGE))
    else
      var options := config.Table(t.name);
      var dir := TableDir(out, t.name, options, snake);
      if dir in p.disk.files then Err(NotADirectory(TABLE_DIR_NOT_A_DIRECTORY, dir))
      else
        var file := TableFile(out, t.name, options, snake);
        var modPath := dir + ["mod.rs"];
        var generated :- Open(p.disk.(dirs := p.disk.dirs + {dir}), file);
        var tableMod :- Open(generated.disk, modPath);
        if !Signed(generated.contents) then Err(NoFileSignature(file))
        else
          var disk := tableMod.disk.Write(file, t.code);
          var changes := p.changes + [ChangeOf(file, generated.contents, t.code)];
          var modRs := Ensured(p.modRs, ModStmt(ModuleName(t.name, snake)));
          if options.singleModelFile then Ok(Progress(disk, modRs, changes))
          else
            var declared := Ensured(Ensured(tableMod.contents, ModStmt("generated")), UseStmt("generated::*"));
            Ok(Progress(disk.Write(modPath, declared), modRs, changes + [ChangeOf(modPath, tableMod.contents, declared)]))
  }

  function Pass1(p: Progress, tables: seq<GeneratedTable>, out: seq<string>, config: GenerationConfig,
                 snake: string -> string): Result<Progress>
    decreases |tables|
  {
    if tables == [] then Ok(p)
    else
      var next :- Pass1Step(p, tables[0], out, config, snake);
      Pass1(next, tables[1..], out, config, snake)
  }

  /** A directory entry is an orphan when it is a directory holding a signed
      `generated.rs` that no generated table claims. */
  predicate IsOrphan(disk: Disk, out: seq<string>, name: string, tables: seq<GeneratedTable>, snake: string -> string) {
    var gen := out + [name, "generated.rs"];
    out + [name] in disk.dirs && gen in disk.files && gen !in disk.dirs && Signed(disk.files[gen])
    && !HasTableFor(tables, name, snake)
  }

  /** Pass 2's handling of an orphan's `mod.rs`: remove the two declarations
      pass 1 adds; delete the file when nothing else is left. */
  function PruneTableMod(p: Progress, modPath: seq<string>): Result<Progress> {
    if !p.disk.Exists(modPath) then Ok(p)
    else
      var read :- Open(p.disk, modPath);
      var rest := Removed(Removed(read.contents, ModStmt("generated")), UseStmt("generated::*"));
      if Trim(rest) == "" then
        Ok(p.(disk := p.disk.Remove(modPath), changes := p.changes + [FileChange(modPath, Deleted)]))
      else
        Ok(p.(disk := p.disk.Write(modPath, rest), changes := p.changes + [ChangeOf(modPath, read.contents, rest)]))
  }

  /** Pruning a table's `mod.rs` never looks at the root `mod.rs` text. */
  lemma PruneTableModFrame(p: Progress, contents: string, modPath: seq<string>)
    ensures var a := PruneTableMod(p, modPath);
            var b := PruneTableMod(p.(modRs := contents), modPath);
            (a.Ok? <==> b.Ok?) && (a.Err? ==> b.error == a.error) && (a.Ok? ==> b.value == a.value.(modRs := contents))
  {
  }

  /** Pruning a table's `mod.rs` touches no other file and no directory. */
  lemma PruneTableModTouches(p: Progress, modPath: seq<string>)
    requires PruneTableMod(p, modPath).Ok?
    ensures var r := PruneTableMod(p, modPath).value;
            r.disk.dirs == p.disk.dirs
            && (forall q :: q != modPath && q in p.disk.files ==> q in r.disk.files && r.disk.files[q] == p.disk.files[q])
            && (forall q :: q in r.disk.files && q != modPath ==> q in p.disk.files)
  {
    if p.disk.Exists(modPath) {
      var read := Open(p.disk, modPath).value;
      assert read.disk.dirs == p.disk.dirs;
      assert forall q :: q != modPath ==> (q in read.disk.files <==> q in p.disk.files);
      assert forall q :: q != modPath && q in p.disk.files ==> read.disk.files[q] == p.disk.files[q];
      var rest := Removed(Removed(read.contents, ModStmt("generated")), UseStmt("generated::*"));
      var r := PruneTableMod(p, modPath).value;
      if Trim(rest) == "" {
        assert r.disk.files == p.disk.files - {modPath};
      } else {
        assert r.disk.files == p.disk.files[modPath := rest];
      }
    }
  }

  /** Pass 2 for one entry of the output directory. */
  function Pass2Step(p: Progress, name: string, out: seq<string>, tables: seq<GeneratedTable>,
                     snake: string -> string): Result<Progress>
  {
    var dir := out + [name];
    var gen := dir + ["generated.rs"];
    if dir !in p.disk.dirs || gen !in p.disk.files then Ok(p)
    else
      var read :- Open(p.disk, gen);
      if !Signed(read.contents) || HasTableFor(tables, name, snake) then Ok(p)
      else
        var pruned :- PruneTableMod(Progress(p.disk.Remove(gen), p.modRs, p.changes + [FileChange(gen, Deleted)]),
                                    dir + ["mod.rs"]);
        var disk := if pruned.disk.IsEmptyDir(dir) then pruned.disk.(dirs := pruned.disk.dirs - {dir}) else pruned.disk;
        Ok(Progress(disk, Removed(p.modRs, ModStmt(name)), pruned.changes))
  }

  function Pass2(p: Progress, entries: seq<string>, out: seq<string>, tables: seq<GeneratedTable>,
                 snake: string -> string): Result<Progress>
    decreases |entries|
  {
    if entries == [] then Ok(p)
    else
      var next :- Pass2Step(p, entries[0], out, tables, snake);
      Pass2(next, entries[1..], out, tables, snake)
  }

  /** The setup before pass 1: the output directory, the root `mod.rs` and
      `common.rs`. */
  function Prepare(disk: Disk, out: seq<string>, config: GenerationConfig, commonStructs: string,
                   connectionType: string): Result<Progress>
  {
    if out in disk.files then Err(NotADirectory(OUTPUT_NOT_A_DIRECTORY, out))
    else
      var root :- Open(disk.(dirs := disk.dirs + {out}), out + ["mod.rs"]);
      CommonStep(Progress(root.disk, root.contents, []), out, config, commonStructs, connectionType)
  }

  /** `generate_files` after parsing: the reported changes and the final
      disk. `entries` are the names `read_dir` yields for the output
      directory, in its order. */
  function Generate(tables: seq<GeneratedTable>, out: seq<string>, config: GenerationConfig, snake: string -> string,
                    commonStructs: string, connectionType: string, entries: seq<string>, disk: Disk)
    : Result<(seq<FileChange>, Disk)>
  {
    var start :- Prepare(disk, out, config, commonStructs, connectionType);
    var loaded := start.disk.files[out + ["mod.rs"]];
    var afterPass1 :- Pass1(start, tables, out, config, snake);
    var afterPass2 :- Pass2(afterPass1, entries, out, tables, snake);
    Ok((afterPass2.changes + [ChangeOf(out + ["mod.rs"], loaded, afterPass2.modRs)],
        afterPass2.disk.Write(out + ["mod.rs"], afterPass2.modRs)))
  }

  // ---------------------------------------------------------------------
  // `generate_files`, step by step

  /** `MarkedFile::new` on the disk. */
  method OpenMarked(disk: Disk, path: seq<string>) returns (r: Result<(Disk, MarkedFile)>)
    ensures r.Err? <==> Open(disk, path).Err?
    ensures r.Err? ==> r.error == Open(disk, path).error
    ensures r.Ok? ==> var (d, f) := r.value;
              d == Open(disk, path).value.disk && fresh(f) && f.path == path
              && f.fileContents == Open(disk, path).value.contents && !f.IsModified()
  {
    if path in disk.dirs {
      return Err(IoError(path));
    }
    var f := new MarkedFile.New(path, disk.Read(path));
    var d := if path in disk.files then disk else disk.Write(path, "");
    return Ok((d, f));
  }

  /** `generated.iter().find(...)` on the module names. */
  method FindTable(tables: seq<GeneratedTable>, name: string, snake: string -> string) returns (found: bool)
    ensures found <==> HasTableFor(tables, name, snake)
  {
    var i := 0;
    while i < |tables|
      invariant 0 <= i <= |tables|
      invariant forall k :: 0 <= k < i ==> !EqIgnoreAsciiCase(ModuleName(tables[k].name, snake), name)
    {
      if EqIgnoreAsciiCase(ModuleName(tables[i].name, snake), name) {
        return true;
      }
      i := i + 1;
    }
    return false;
  }

  /** The `common.rs` step. */
  method SyncCommon(disk: Disk, changes: seq<FileChange>, out: seq<string>, config: GenerationConfig,
                    commonStructs: string, connectionType: string, modRs: MarkedFile)
    returns (r: Result<(Disk, seq<FileChange>)>)
    modifies modRs`fileContents
    ensures var spec := CommonStep(Progress(disk, old(modRs.fileContents), changes), out, config, commonStructs, connectionType);
            (r.Ok? <==> spec.Ok?) && (r.Err? ==> r.error == spec.error)
            && (r.Ok? ==> Progress(r.value.0, modRs.fileContents, r.value.1) == spec.value)
  {
    if !(config.onceCommonStructs || config.onceConnectionType) {
      return Ok((disk, changes));
    }
    var path := out + ["common.rs"];
    var got := OpenMarked(disk, path);
    if got.Err? {
      return Err(got.error);
    }
    var (d, commonFile) := got.value;
    var signed := commonFile.EnsureFileSignature();
    if signed.Err? {
      return Err(signed.error);
    }
    commonFile.ChangeFileContents(CommonText(config, commonStructs, connectionType));
    d := d.Write(commonFile.path, commonFile.fileContents);
    var cs := changes + [FileChangeFrom(commonFile)];
    modRs.EnsureModStmt("common");
    return Ok((d, cs));
  }

  /** Pass 1 for one table. */
  method SyncTable(disk: Disk, changes: seq<FileChange>, t: GeneratedTable, out: seq<string>, config: GenerationConfig,
                   snake: string -> string, modRs: MarkedFile)
    returns (r: Result<(Disk, seq<FileChange>)>)
    modifies modRs`fileContents
    ensures var spec := Pass1Step(Progress(disk, old(modRs.fileContents), changes), t, out, config, snake);
            (r.Ok? <==> spec.Ok?) && (r.Err? ==> r.error == spec.error)
            && (r.Ok? ==> Progress(r.value.0, modRs.fileContents, r.value.1) == spec.value)
  {
    if config.onceCommonStructs && t.name == "common" {
      return Err(Other(COMMON_TABLE_MESSAGE));
    }
    var options := config.Table(t.name);
    var dir := TableDir(out, t.name, options, snake);
    if dir in disk.files {
      return Err(NotADirectory(TABLE_DIR_NOT_A_DIRECTORY, dir));
    }
    var got := OpenMarked(disk.(dirs := disk.dirs + {dir}), TableFile(out, t.name, options, snake));
    if got.Err? {
      return Err(got.error);
    }
    var (d, generatedRs) := got.value;
    var gotMod := OpenMarked(d, dir + ["mod.rs"]);
    if gotMod.Err? {
      return Err(gotMod.error);
    }
    var tableModRs;
    d, tableModRs := gotMod.value.0, gotMod.value.1;
    var signed := generatedRs.EnsureFileSignature();
    if signed.Err? {
      return Err(signed.error);
    }
    generatedRs.ChangeFileContents(t.code);
    d := d.Write(generatedRs.path, generatedRs.fileContents);
    var cs := changes + [FileChangeFrom(generatedRs)];
    if !options.singleModelFile {
      tableModRs.EnsureModStmt("generated");
      tableModRs.EnsureUseStmt("generated::*");
      d := d.Write(tableModRs.path, tableModRs.fileContents);
      cs := cs + [FileChangeFrom(tableModRs)];
    }
    modRs.EnsureModStmt(ModuleName(t.name, snake));
    return Ok((d, cs));
  }

  /** Pass 2's handling of an orphan's `mod.rs`. */
  method PruneTableModFile(disk: Disk, changes: seq<FileChange>, modPath: seq<string>)
    returns (r: Result<(Disk, seq<FileChange>)>)
    ensures var spec := PruneTableMod(Progress(disk, "", changes), modPath);
            (r.Ok? <==> spec.Ok?) && (r.Err? ==> r.error == spec.error)
            && (r.Ok? ==> Progress(r.value.0, "", r.value.1) == spec.value)
  {
    if !disk.Exists(modPath) {
      return Ok((disk, changes));
    }
    var got := OpenMarked(disk, modPath);
    if got.Err? {
      return Err(got.error);
    }
    var (d, tableModRs) := got.value;
    tableModRs.RemoveModStmt("generated");
    tableModRs.RemoveUseStmt("generated::*");
    if Trim(tableModRs.fileContents) == "" {
      return Ok((d.Remove(modPath), changes + [FileChange(modPath, Deleted)]));
    }
    return Ok((d.Write(modPath, tableModRs.fileContents), changes + [FileChangeFrom(tableModRs)]));
  }

  /** Pass 2 for one entry of the output directory. */
  method PruneEntry(disk: Disk, changes: seq<FileChange>, name: string, out: seq<string>, tables: seq<GeneratedTable>,
                    snake: string -> string, modRs: MarkedFile)
    returns (r: Result<(Disk, seq<FileChange>)>)
    modifies modRs`fileContents
    ensures var spec := Pass2Step(Progress(disk, old(modRs.fileContents), changes), name, out, tables, snake);
            (r.Ok? <==> spec.Ok?) && (r.Err? ==> r.error == spec.error)
            && (r.Ok? ==> Progress(r.value.0, modRs.fileContents, r.value.1) == spec.value)
  {
    var dir := out + [name];
    var gen := dir + ["generated.rs"];
    if dir !in disk.dirs || gen !in disk.files {
      return Ok((disk, changes));
    }
    var got := OpenMarked(disk, gen);
    if got.Err? {
      return Err(got.error);
    }
    var generatedRs := got.value.1;
    var found := FindTable(tables, name, snake);
    if !generatedRs.HasFileSignature() || found {
      return Ok((disk, changes));
    }
    var pruned := PruneTableModFile(disk.Remove(gen), changes + [FileChange(gen, Deleted)], dir + ["mod.rs"]);
    PruneTableModFrame(Progress(disk.Remove(gen), "", changes + [FileChange(gen, Deleted)]), old(modRs.fileContents),
                       dir + ["mod.rs"]);
    if pruned.Err? {
      return Err(pruned.error);
    }
    var (d, cs) := pruned.value;
    if d.IsEmptyDir(dir) {
      d := d.(dirs := d.dirs - {dir});
    }
    modRs.RemoveModStmt(name);
    return Ok((d, cs));
  }

  /** `generate_files` from the parsed tables on: prepare the output
      directory, pass 1 over the tables, pass 2 over the directory's
      entries, then write the root `mod.rs`. */
  method GenerateFiles(tables: seq<GeneratedTable>, out: seq<string>, config: GenerationConfig, snake: string -> string,
                       commonStructs: string, connectionType: string, entries: seq<string>, disk: Disk)
    returns (r: Result<(seq<FileChange>, Disk)>)
    ensures r == Generate(tables, out, config, snake, commonStructs, connectionType, entries, disk)
  {
    if out in disk.files {
      return Err(NotADirectory(OUTPUT_NOT_A_DIRECTORY, out));
    }
    var root := OpenMarked(disk.(dirs := disk.dirs + {out}), out + ["mod.rs"]);
    if root.Err? {
      return Err(root.error);
    }
    var (d, modRs) := root.value;
    var common := SyncCommon(d, [], out, config, commonStructs, connectionType, modRs);
    if common.Err? {
      return Err(common.error);
    }
    assert d.files[out + ["mod.rs"]] == modRs.loadedContents;
    assert (out + ["common.rs"])[|out|] != (out + ["mod.rs"])[|out|];
    var changes;
    d, changes := common.value.0, common.value.1;
    ghost var start := Progress(d, modRs.fileContents, changes);
    assert Prepare(disk, out, config, commonStructs, connectionType) == Ok(start);
    assert modRs.loadedContents == start.disk.files[out + ["mod.rs"]];

    var i := 0;
    while i < |tables|
      invariant 0 <= i <= |tables|
      invariant modRs.path == out + ["mod.rs"] && modRs.loadedContents == start.disk.files[out + ["mod.rs"]]
      invariant Pass1(Progress(d, modRs.fileContents, changes), tables[i..], out, config, snake)
                == Pass1(start, tables, out, config, snake)
    {
      var step := SyncTable(d, changes, tables[i], out, config, snake, modRs);
      assert tables[i..][0] == tables[i] && tables[i..][1..] == tables[i + 1..];
      if step.Err? {
        return Err(step.error);
      }
      d, changes := step.value.0, step.value.1;
      i := i + 1;
    }
    ghost var afterPass1 := Progress(d, modRs.fileContents, changes);
    assert Pass1(start, tables, out, config, snake) == Ok(afterPass1);

    var j := 0;
    while j < |entries|
      invariant 0 <= j <= |entries|
      invariant modRs.path == out + ["mod.rs"] && modRs.loadedContents == start.disk.files[out + ["mod.rs"]]
      invariant Pass2(Progress(d, modRs.fileContents, changes), entries[j..], out, tables, snake)
                == Pass2(afterPass1, entries, out, tables, snake)
    {
      var step := PruneEntry(d, changes, entries[j], out, tables, snake, modRs);
      assert entries[j..][0] == entries[j] && entries[j..][1..] == entries[j + 1..];
      if step.Err? {
        return Err(step.error);
      }
      d, changes := step.value.0, step.value.1;
      j := j + 1;
    }
    assert Pass2(afterPass1, entries, out, tables, snake) == Ok(Progress(d, modRs.fileContents, changes));

    d := d.Write(modRs.path, modRs.fileContents);
    changes := changes + [FileChangeFrom(modRs)];
    return Ok((changes, d));
  }
}
