/** crates/lib/src/file.rs: a text file that the generator owns, with the
    `pub mod x;` / `pub use x;` declarations it edits and the signature
    check that protects hand-written files from being overwritten.

    A path is a sequence of segments, as Rust's `PathBuf` is a sequence of
    components. */
module MarkedFiles {
  import opened Wrappers
  import opened Errors
  import opened Strings
  import Schema

  /** The text `has_use_stmt` and friends look for: `pub use NAME;`. */
  function UseStmt(name: string): (r: string)
    ensures StartsWith(r, "pub use ") && EndsWith(r, ";") && |r| == |name| + 9
  {
    "pub use " + name + ";"
  }

  /** The text `has_mod_stmt` and friends look for: `pub mod NAME;`. */
  function ModStmt(name: string): (r: string)
    ensures StartsWith(r, "pub mod ") && EndsWith(r, ";") && |r| == |name| + 9
  {
    "pub mod " + name + ";"
  }

  /** `add_use_stmt`/`add_mod_stmt` on the contents: trim, a separating
      newline when something is left, the declaration and a final newline. */
  function Appended(contents: string, stmt: string): string {
    var trimmed := Trim(contents);
    (if trimmed == "" then "" else trimmed + "\n") + stmt + "\n"
  }

  /** `ensure_*_stmt` on the contents: add the declaration when it is missing. */
  function Ensured(contents: string, stmt: string): string {
    if Contains(contents, stmt) then contents else Appended(contents, stmt)
  }

  /** `remove_*_stmt` on the contents: when the declaration occurs, delete
      every occurrence and trim; otherwise leave the text alone. */
  function Removed(contents: string, stmt: string): string
    requires stmt != []
  {
    if Contains(contents, stmt) then Trim(ReplaceAll(contents, stmt, "")) else contents
  }

  /** `has_file_signature`: empty, or starts with the generator's signature. */
  predicate Signed(contents: string) {
    contents == "" || StartsWith(contents, Schema.FILE_SIGNATURE)
  }

  /** A generated file, loaded from disk. `loadedContents` is what was read
      when the file was opened; `is_modified` compares against it. */
  class MarkedFile {
    const path: seq<string>
    const loadedContents: string
    var fileContents: string

    /** `MarkedFile::new` over the file's current contents: a file that does
        not exist is opened as empty (and created empty on disk). */
    constructor New(path: seq<string>, existing: Option<string>)
      ensures this.path == path
      ensures fileContents == loadedContents
      ensures existing.None? ==> fileContents == ""
      ensures existing.Some? ==> fileContents == existing.value
      ensures !IsModified()
      ensures existing.None? ==> HasFileSignature()
    {
      this.path := path;
      loadedContents := existing.GetOr("");
      fileContents := existing.GetOr("");
    }

    predicate HasUseStmt(name: string)
      reads this
    {
      Contains(fileContents, UseStmt(name))
    }

    predicate HasModStmt(name: string)
      reads this
    {
      Contains(fileContents, ModStmt(name))
    }

    method AddUseStmt(name: string)
      modifies this`fileContents
      ensures fileContents == Appended(old(fileContents), UseStmt(name))
      ensures HasUseStmt(name)
    {
      AddStmt(UseStmt(name));
    }

    method AddModStmt(name: string)
      modifies this`fileContents
      ensures fileContents == Appended(old(fileContents), ModStmt(name))
      ensures HasModStmt(name)
    {
      AddStmt(ModStmt(name));
    }

    /** The body shared by the two `add_*_stmt` methods. */
    method AddStmt(stmt: string)
      modifies this`fileContents
      ensures fileContents == Appended(old(fileContents), stmt)
      ensures Contains(fileContents, stmt)
    {
      fileContents := Trim(fileContents);
      if fileContents != "" {
        fileContents := fileContents + "\n";
      }
      var tail := stmt + "\n";
      fileContents := fileContents + tail;
      assert OccursAt(fileContents, stmt, |fileContents| - |tail|);
    }

    method RemoveUseStmt(name: string)
      modifies this`fileContents
      ensures fileContents == Removed(old(fileContents), UseStmt(name))
      ensures !old(HasUseStmt(name)) ==> fileContents == old(fileContents)
    {
      RemoveStmt(UseStmt(name));
    }

    method RemoveModStmt(name: string)
      modifies this`fileContents
      ensures fileContents == Removed(old(fileContents), ModStmt(name))
      ensures !old(HasModStmt(name)) ==> fileContents == old(fileContents)
    {
      RemoveStmt(ModStmt(name));
    }

    /** The body shared by the two `remove_*_stmt` methods. */
    method RemoveStmt(stmt: string)
      requires stmt != []
      modifies this`fileContents
      ensures fileContents == Removed(old(fileContents), stmt)
    {
      if Contains(fileContents, stmt) {
        fileContents := Trim(ReplaceAll(fileContents, stmt, ""));
      }
    }

    method EnsureUseStmt(name: string)
      modifies this`fileContents
      ensures fileContents == Ensured(old(fileContents), UseStmt(name))
      ensures HasUseStmt(name)
      ensures old(HasUseStmt(name)) ==> fileContents == old(fileContents)
    {
      if !HasUseStmt(name) {
        AddUseStmt(name);
      }
    }

    method EnsureModStmt(name: string)
      modifies this`fileContents
      ensures fileContents == Ensured(old(fileContents), ModStmt(name))
      ensures HasModStmt(name)
      ensures old(HasModStmt(name)) ==> fileContents == old(fileContents)
    {
      if !HasModStmt(name) {
        AddModStmt(name);
      }
    }

    predicate HasFileSignature()
      reads this
    {
      Signed(fileContents)
    }

    /** `ensure_file_signature`, which panics in file.rs and is used with
        `?` by the generator: an unsigned file is a `NoFileSignature` error
        naming the file. The contents are never changed. */
    method EnsureFileSignature() returns (r: Result<()>)
      ensures r.Ok? <==> HasFileSignature()
      ensures r.Err? ==> r.error == NoFileSignature(path)
    {
      if !HasFileSignature() {
        return Err(NoFileSignature(path));
      }
      return Ok(());
    }

    /** The generator's `change_file_contents`: replace the whole text. */
    method ChangeFileContents(contents: string)
      modifies this`fileContents
      ensures fileContents == contents
    {
      fileContents := contents;
    }

    /** The generator's `is_modified`: the text differs from what was loaded. */
    predicate IsModified()
      reads this
    {
      fileContents != loadedContents
    }
  }
}
