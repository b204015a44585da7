/** Properties of `generate_files`' two passes. */
module SyncFacts {
  import opened Errors
  import opened Strings
  import opened Options
  import opened MarkedFiles
  import opened MarkedFileFacts
  import opened Sync

  // ---------------------------------------------------------------------
  // Pass 1

  /** Pass 1 only overwrites a table's target file when it is missing or
      carries the signature; the table's `mod.rs` is not checked. */
  lemma Pass1OverwritesOnlySigned(p: Progress, t: GeneratedTable, out: seq<string>, config: GenerationConfig,
                                  snake: string -> string)
    requires Pass1Step(p, t, out, config, snake).Ok?
    ensures var file := TableFile(out, t.name, config.Table(t.name), snake);
            file !in p.disk.files || Signed(p.disk.files[file])
  {
    var options := config.Table(t.name);
    var dir := TableDir(out, t.name, options, snake);
    var file := TableFile(out, t.name, options, snake);
    var generated := Open(p.disk.(dirs := p.disk.dirs + {dir}), file).value;
    assert file in p.disk.files ==> generated.contents == p.disk.files[file];
  }

  /** `common.rs` is written only when it is missing or signed; an unsigned
      one stops the run with an error naming it. */
  lemma CommonOverwritesOnlySigned(p: Progress, out: seq<string>, config: GenerationConfig, commonStructs: string,
                                   connectionType: string)
    requires config.onceCommonStructs || config.onceConnectionType
    requires out + ["common.rs"] !in p.disk.dirs
    ensures var path := out + ["common.rs"];
            var r := CommonStep(p, out, config, commonStructs, connectionType);
            (r.Ok? <==> path !in p.disk.files || Signed(p.disk.files[path]))
            && (r.Err? ==> r.error == NoFileSignature(path))
  {
  }

  /** With `once_common_structs`, a table named `common` stops pass 1. */
  lemma {:induction false} Pass1RefusesCommon(p: Progress, tables: seq<GeneratedTable>, out: seq<string>,
                                             config: GenerationConfig, snake: string -> string)
    requires Pass1(p, tables, out, config, snake).Ok?
    ensures config.onceCommonStructs ==> forall k :: 0 <= k < |tables| ==> tables[k].name != "common"
    decreases |tables|
  {
    if tables != [] {
      var next := Pass1Step(p, tables[0], out, config, snake);
      Pass1RefusesCommon(next.value, tables[1..], out, config, snake);
      forall k | 1 <= k < |tables|
        ensures tables[k] == tables[1..][k - 1]
      {
      }
    }
  }

  /** The whole run fails when pass 1 meets a table named `common` under
      `once_common_structs`. */
  lemma GenerateRefusesCommon(tables: seq<GeneratedTable>, out: seq<string>, config: GenerationConfig,
                              snake: string -> string, commonStructs: string, connectionType: string,
                              entries: seq<string>, disk: Disk, k: int)
    requires config.onceCommonStructs && 0 <= k < |tables| && tables[k].name == "common"
    ensures Generate(tables, out, config, snake, commonStructs, connectionType, entries, disk).Err?
  {
    var start := Prepare(disk, out, config, commonStructs, connectionType);
    if start.Ok? && Pass1(start.value, tables, out, config, snake).Ok? {
      Pass1RefusesCommon(start.value, tables, out, config, snake);
    }
  }

  /** One step of pass 1 keeps every file, declares the table's module in
      the root `mod.rs` and keeps every declaration already there. */
  lemma Pass1StepEffect(p: Progress, t: GeneratedTable, out: seq<string>, config: GenerationConfig,
                        snake: string -> string)
    requires Pass1Step(p, t, out, config, snake).Ok?
    ensures var r := Pass1Step(p, t, out, config, snake).value;
            p.disk.files.Keys <= r.disk.files.Keys
            && TableFile(out, t.name, config.Table(t.name), snake) in r.disk.files
            && TableDir(out, t.name, config.Table(t.name), snake) in r.disk.dirs
            && Contains(r.modRs, ModStmt(ModuleName(t.name, snake)))
            && forall q :: Solid(q) && Contains(p.modRs, q) ==> Contains(r.modRs, q)
  {
    var m := ModStmt(ModuleName(t.name, snake));
    EnsuredContains(p.modRs, m);
    forall q | Solid(q) && Contains(p.modRs, q)
      ensures Contains(Ensured(p.modRs, m), q)
    {
      EnsuredKeepsSolid(p.modRs, m, q);
    }
  }

  /** After pass 1 the root `mod.rs` declares every table's module and every
      table's target file exists; no file is removed. */
  lemma {:induction false} Pass1DeclaresEveryModule(p: Progress, tables: seq<GeneratedTable>, out: seq<string>,
                                                   config: GenerationConfig, snake: string -> string)
    requires Pass1(p, tables, out, config, snake).Ok?
    ensures var r := Pass1(p, tables, out, config, snake).value;
            p.disk.files.Keys <= r.disk.files.Keys
            && (forall q :: Solid(q) && Contains(p.modRs, q) ==> Contains(r.modRs, q))
            && forall k :: 0 <= k < |tables| ==>
                 Contains(r.modRs, ModStmt(ModuleName(tables[k].name, snake)))
                 && TableFile(out, tables[k].name, config.Table(tables[k].name), snake) in r.disk.files
    decreases |tables|
  {
    if tables != [] {
      var next := Pass1Step(p, tables[0], out, config, snake).value;
      Pass1StepEffect(p, tables[0], out, config, snake);
      Pass1DeclaresEveryModule(next, tables[1..], out, config, snake);
      var r := Pass1(p, tables, out, config, snake).value;
      assert r == Pass1(next, tables[1..], out, config, snake).value;
      StatementsAreSolid(ModuleName(tables[0].name, snake));
      forall k | 0 <= k < |tables|
        ensures Contains(r.modRs, ModStmt(ModuleName(tables[k].name, snake)))
        ensures TableFile(out, tables[k].name, config.Table(tables[k].name), snake) in r.disk.files
      {
        if k > 0 {
          assert tables[k] == tables[1..][k - 1];
        }
      }
    }
  }

  // ---------------------------------------------------------------------
  // Pass 2

  /** The paths one step of pass 2 may change: the entry's `generated.rs`
      and `mod.rs` (files) and the entry itself (directory). A step that
      changes anything handled an orphan; a file can only appear as the
      entry's `mod.rs`. */
  lemma Pass2StepFrame(p: Progress, m: string, out: seq<string>, tables: seq<GeneratedTable>, snake: string -> string)
    requires Pass2Step(p, m, out, tables, snake).Ok?
    ensures var r := Pass2Step(p, m, out, tables, snake).value;
            (r != p ==> IsOrphan(p.disk, out, m, tables, snake))
            && (forall q :: q != out + [m, "generated.rs"] && q != out + [m, "mod.rs"] && q in p.disk.files
                  ==> q in r.disk.files && r.disk.files[q] == p.disk.files[q])
            && (forall q :: q in r.disk.files && q != out + [m, "mod.rs"] ==> q in p.disk.files)
            && (forall q :: q != out + [m] ==> (q in r.disk.dirs <==> q in p.disk.dirs))
  {
    var dir := out + [m];
    var gen := dir + ["generated.rs"];
    assert gen == out + [m, "generated.rs"];
    assert dir + ["mod.rs"] == out + [m, "mod.rs"];
    if dir in p.disk.dirs && gen in p.disk.files && Signed(p.disk.files[gen]) && !HasTableFor(tables, m, snake) {
      PruneTableModTouches(Progress(p.disk.Remove(gen), p.modRs, p.changes + [FileChange(gen, Deleted)]), dir + ["mod.rs"]);
    }
  }

  /** An orphan's `generated.rs` is deleted, and only an orphan's: pass 2
      leaves every other state alone, and for an orphan drops its
      `pub mod` line from the root `mod.rs`. */
  lemma Pass2StepOrphan(p: Progress, m: string, out: seq<string>, tables: seq<GeneratedTable>, snake: string -> string)
    requires Pass2Step(p, m, out, tables, snake).Ok?
    ensures var r := Pass2Step(p, m, out, tables, snake).value;
            (IsOrphan(p.disk, out, m, tables, snake) <==> out + [m, "generated.rs"] in p.disk.files - r.disk.files.Keys)
            && (IsOrphan(p.disk, out, m, tables, snake) ==>
                  (r.modRs == Removed(p.modRs, ModStmt(m))
                   && r.changes[..|p.changes| + 1] == p.changes + [FileChange(out + [m, "generated.rs"], Deleted)]))
            && (!IsOrphan(p.disk, out, m, tables, snake) ==> r == p)
  {
    var dir := out + [m];
    var gen := dir + ["generated.rs"];
    assert gen == out + [m, "generated.rs"];
    assert gen[|dir|] != (dir + ["mod.rs"])[|dir|];
    var r := Pass2Step(p, m, out, tables, snake).value;
    if IsOrphan(p.disk, out, m, tables, snake) {
      var removed := Progress(p.disk.Remove(gen), p.modRs, p.changes + [FileChange(gen, Deleted)]);
      var pruned := PruneTableMod(removed, dir + ["mod.rs"]).value;
      assert pruned.changes[..|removed.changes|] == removed.changes;
      assert r.changes == pruned.changes;
    }
  }

  /** The step's frame, applied to an entry other than the one handled:
      its orphan status does not change. */
  lemma Pass2StepKeepsOtherOrphans(p: Progress, m: string, n: string, out: seq<string>, tables: seq<GeneratedTable>,
                                   snake: string -> string)
    requires Pass2Step(p, m, out, tables, snake).Ok? && m != n
    ensures IsOrphan(Pass2Step(p, m, out, tables, snake).value.disk, out, n, tables, snake)
            == IsOrphan(p.disk, out, n, tables, snake)
  {
    Pass2StepFrame(p, m, out, tables, snake);
    assert (out + [n])[|out|] != (out + [m])[|out|];
    assert (out + [n, "generated.rs"])[|out|] != (out + [m, "generated.rs"])[|out|];
    assert (out + [n, "generated.rs"])[|out| + 1] != (out + [m, "mod.rs"])[|out| + 1];
  }

  /** Pass 2 changes no file outside the orphans' `generated.rs` and
      `mod.rs`. In particular it never touches a directory that a generated
      table claims, nor the single-file-mode outputs directly in `out`. */
  lemma {:induction false} Pass2Frame(p: Progress, entries: seq<string>, out: seq<string>, tables: seq<GeneratedTable>,
                                      snake: string -> string, q: seq<string>)
    requires Pass2(p, entries, out, tables, snake).Ok?
    requires forall m :: !HasTableFor(tables, m, snake) ==> q != out + [m, "generated.rs"] && q != out + [m, "mod.rs"]
    ensures var r := Pass2(p, entries, out, tables, snake).value;
            (q in r.disk.files <==> q in p.disk.files) && (q in p.disk.files ==> r.disk.files[q] == p.disk.files[q])
    decreases |entries|
  {
    if entries != [] {
      var m := entries[0];
      var next := Pass2Step(p, m, out, tables, snake).value;
      Pass2StepFrame(p, m, out, tables, snake);
      Pass2Frame(next, entries[1..], out, tables, snake, q);
      if q == out + [m, "generated.rs"] || q == out + [m, "mod.rs"] {
        assert HasTableFor(tables, m, snake);
        assert next == p;
      }
    }
  }

  /** A table's own directory keeps its `generated.rs` and `mod.rs` through
      pass 2. */
  lemma Pass2KeepsClaimedTables(p: Progress, entries: seq<string>, out: seq<string>, tables: seq<GeneratedTable>,
                                snake: string -> string, k: int, file: string)
    requires Pass2(p, entries, out, tables, snake).Ok? && 0 <= k < |tables|
    requires file == "generated.rs" || file == "mod.rs"
    ensures var q := out + [ModuleName(tables[k].name, snake), file];
            var r := Pass2(p, entries, out, tables, snake).value;
            (q in r.disk.files <==> q in p.disk.files) && (q in p.disk.files ==> r.disk.files[q] == p.disk.files[q])
  {
    var n := ModuleName(tables[k].name, snake);
    var q := out + [n, file];
    assert EqIgnoreAsciiCase(ModuleName(tables[k].name, snake), n);
    assert HasTableFor(tables, n, snake);
    forall m | !HasTableFor(tables, m, snake)
      ensures q != out + [m, "generated.rs"] && q != out + [m, "mod.rs"]
    {
      assert m != n && q[|out|] == n;
      assert (out + [m, "generated.rs"])[|out|] == m && (out + [m, "mod.rs"])[|out|] == m;
    }
    Pass2Frame(p, entries, out, tables, snake, q);
  }

  /** Single-file mode writes `out/<table>.rs`, which pass 2 never looks at:
      a removed table's single file stays behind. */
  lemma Pass2KeepsTopLevelFiles(p: Progress, entries: seq<string>, out: seq<string>, tables: seq<GeneratedTable>,
                                snake: string -> string, name: string)
    requires Pass2(p, entries, out, tables, snake).Ok?
    ensures var q := out + [name];
            var r := Pass2(p, entries, out, tables, snake).value;
            (q in r.disk.files <==> q in p.disk.files) && (q in p.disk.files ==> r.disk.files[q] == p.disk.files[q])
  {
    Pass2Frame(p, entries, out, tables, snake, out + [name]);
  }

  /** Once gone, a `generated.rs` does not come back in pass 2. */
  lemma {:induction false} Pass2NeverRestoresGenerated(p: Progress, entries: seq<string>, out: seq<string>,
                                                      tables: seq<GeneratedTable>, snake: string -> string, n: string)
    requires Pass2(p, entries, out, tables, snake).Ok?
    requires out + [n, "generated.rs"] !in p.disk.files
    ensures out + [n, "generated.rs"] !in Pass2(p, entries, out, tables, snake).value.disk.files
    decreases |entries|
  {
    if entries != [] {
      var m := entries[0];
      Pass2StepFrame(p, m, out, tables, snake);
      assert (out + [n, "generated.rs"])[|out| + 1] != (out + [m, "mod.rs"])[|out| + 1];
      Pass2NeverRestoresGenerated(Pass2Step(p, m, out, tables, snake).value, entries[1..], out, tables, snake, n);
    }
  }

  /** Every listed orphan loses its `generated.rs`. */
  lemma {:induction false} Pass2RemovesOrphans(p: Progress, entries: seq<string>, out: seq<string>,
                                              tables: seq<GeneratedTable>, snake: string -> string, n: string)
    requires Pass2(p, entries, out, tables, snake).Ok?
    requires n in entries && IsOrphan(p.disk, out, n, tables, snake)
    ensures out + [n, "generated.rs"] !in Pass2(p, entries, out, tables, snake).value.disk.files
    decreases |entries|
  {
    var m := entries[0];
    var next := Pass2Step(p, m, out, tables, snake).value;
    if m == n {
      Pass2StepOrphan(p, m, out, tables, snake);
      Pass2NeverRestoresGenerated(next, entries[1..], out, tables, snake, n);
    } else {
      Pass2StepKeepsOtherOrphans(p, m, n, out, tables, snake);
      Pass2RemovesOrphans(next, entries[1..], out, tables, snake, n);
    }
  }

  // ---------------------------------------------------------------------
  // The root `mod.rs` after pass 2

  /** The entries that are orphans on `disk`, in listing order. */
  function OrphansOf(disk: Disk, entries: seq<string>, out: seq<string>, tables: seq<GeneratedTable>,
                     snake: string -> string): seq<string>
  {
    if entries == [] then []
    else (if IsOrphan(disk, out, entries[0], tables, snake) then [entries[0]] else [])
         + OrphansOf(disk, entries[1..], out, tables, snake)
  }

  /** The root `mod.rs` text with each listed module's declaration removed
      in turn. */
  function RemoveModules(text: string, names: seq<string>): string
    decreases |names|
  {
    if names == [] then text
    else
      var stmt := ModStmt(names[0]);
      assert |stmt| > 0;
      RemoveModules(Removed(text, stmt), names[1..])
  }

  /** Orphan status of entries other than the one just handled is
      unchanged, for a whole list of them. */
  lemma {:induction false} OrphansOfAfterStep(p: Progress, m: string, rest: seq<string>, out: seq<string>,
                                             tables: seq<GeneratedTable>, snake: string -> string)
    requires Pass2Step(p, m, out, tables, snake).Ok? && m !in rest
    ensures OrphansOf(Pass2Step(p, m, out, tables, snake).value.disk, rest, out, tables, snake)
            == OrphansOf(p.disk, rest, out, tables, snake)
    decreases |rest|
  {
    if rest != [] {
      Pass2StepKeepsOtherOrphans(p, m, rest[0], out, tables, snake);
      OrphansOfAfterStep(p, m, rest[1..], out, tables, snake);
    }
  }

  /** With each entry listed once, pass 2 leaves the root `mod.rs` as the
      original text with every orphan's `pub mod` line removed, in listing
      order. */
  lemma {:induction false} Pass2RootModRs(p: Progress, entries: seq<string>, out: seq<string>,
                                         tables: seq<GeneratedTable>, snake: string -> string)
    requires Pass2(p, entries, out, tables, snake).Ok?
    requires forall i, j :: 0 <= i < j < |entries| ==> entries[i] != entries[j]
    ensures Pass2(p, entries, out, tables, snake).value.modRs
            == RemoveModules(p.modRs, OrphansOf(p.disk, entries, out, tables, snake))
    decreases |entries|
  {
    if entries != [] {
      var m := entries[0];
      var next := Pass2Step(p, m, out, tables, snake).value;
      Pass2StepOrphan(p, m, out, tables, snake);
      assert m !in entries[1..] by {
        forall j | 0 <= j < |entries[1..]|
          ensures entries[1..][j] != m
        {
          assert entries[1..][j] == entries[j + 1];
        }
      }
      OrphansOfAfterStep(p, m, entries[1..], out, tables, snake);
      Pass2RootModRs(next, entries[1..], out, tables, snake);
      var rest := OrphansOf(p.disk, entries[1..], out, tables, snake);
      if IsOrphan(p.disk, out, m, tables, snake) {
        assert OrphansOf(p.disk, entries, out, tables, snake) == [m] + rest;
        assert ([m] + rest)[0] == m && ([m] + rest)[1..] == rest;
      } else {
        assert OrphansOf(p.disk, entries, out, tables, snake) == [] + rest;
        assert [] + rest == rest;
      }
    }
  }
}
