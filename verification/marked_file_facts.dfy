/** Properties of the marked-file text operations. */
module MarkedFileFacts {
  import opened Strings
  import opened MarkedFiles
  import Schema

  /** A declaration-like text: it neither starts nor ends with whitespace,
      so trimming around it cannot cut into it. */
  predicate Solid(p: string) {
    p != [] && !IsWhitespace(p[0]) && !IsWhitespace(p[|p| - 1])
  }

  lemma StatementsAreSolid(name: string)
    ensures Solid(ModStmt(name)) && Solid(UseStmt(name))
  {
    assert ModStmt(name)[0] == 'p' && UseStmt(name)[0] == 'p';
  }

  // ---------------------------------------------------------------------
  // Trimming

  /** Trimming keeps every occurrence of a solid text. */
  lemma TrimKeepsSolid(c: string, p: string, i: int)
    requires Solid(p) && OccursAt(c, p, i)
    ensures Contains(Trim(c), p)
  {
    var k := TrimStartKeepsSolid(c, p, i);
    TrimEndKeepsSolid(TrimStart(c), p, k);
  }

  lemma TrimStartKeepsSolid(c: string, p: string, i: int) returns (k: int)
    requires Solid(p) && OccursAt(c, p, i)
    ensures OccursAt(TrimStart(c), p, k)
  {
    k := i - (|c| - |TrimStart(c)|);
    DropWhitespaceKeepsSolid(c, |c| - |TrimStart(c)|, p, i);
  }

  /** Dropping a whitespace prefix keeps an occurrence of a solid text. */
  lemma DropWhitespaceKeepsSolid(c: string, d: int, p: string, i: int)
    requires 0 <= d <= |c| && forall j :: 0 <= j < d ==> IsWhitespace(c[j])
    requires Solid(p) && OccursAt(c, p, i)
    ensures OccursAt(c[d..], p, i - d)
  {
    OccursAtEnds(c, p, i);
    SliceOfSuffix(c, d, i - d, |p|);
  }

  lemma OccursAtEnds(c: string, p: string, i: int)
    requires p != [] && OccursAt(c, p, i)
    ensures c[i] == p[0] && c[i + |p| - 1] == p[|p| - 1]
  {
    assert c[i..i + |p|][0] == c[i];
    assert c[i..i + |p|][|p| - 1] == c[i + |p| - 1];
  }


  lemma SliceOfSuffix(c: string, d: int, k: int, n: int)
    requires 0 <= d <= |c| && 0 <= k && 0 <= n && d + k + n <= |c|
    ensures c[d..][k..k + n] == c[d + k..d + k + n]
  {
  }

  lemma TrimEndKeepsSolid(c: string, p: string, i: int)
    requires Solid(p) && OccursAt(c, p, i)
    ensures OccursAt(TrimEnd(c), p, i) && Contains(TrimEnd(c), p)
  {
    var t := TrimEnd(c);
    OccursAtEnds(c, p, i);
    assert i + |p| <= |t|;
    assert t[i..i + |p|] == c[i..i + |p|];
  }

  /** Trimming keeps a solid prefix. */
  lemma TrimKeepsSolidPrefix(c: string, p: string)
    requires Solid(p) && StartsWith(c, p)
    ensures StartsWith(Trim(c), p)
  {
    assert c[0] == p[0];
    assert TrimStart(c) == c;
    var t2 := TrimEnd(c);
    assert c[|p| - 1] == p[|p| - 1];
    assert |p| <= |t2|;
    assert t2[..|p|] == c[..|p|];
  }

  // ---------------------------------------------------------------------
  // Adding and ensuring

  /** After adding, the declaration is there, the old text (trimmed) comes
      first and the file ends with a newline. */
  lemma AppendedShape(c: string, stmt: string)
    ensures var r := Appended(c, stmt);
            Contains(r, stmt) && StartsWith(r, Trim(c)) && r[|r| - 1] == '\n'
  {
    var r := Appended(c, stmt);
    assert OccursAt(r, stmt, |r| - |stmt| - 1);
  }

  /** Adding keeps every solid text already present, in particular every
      other declaration. */
  lemma AppendedKeepsSolid(c: string, stmt: string, p: string)
    requires Solid(p) && Contains(c, p)
    ensures Contains(Appended(c, stmt), p)
  {
    var i :| 0 <= i <= |c| - |p| && OccursAt(c, p, i);
    TrimKeepsSolid(c, p, i);
    var trimmed := Trim(c);
    var j :| 0 <= j <= |trimmed| - |p| && OccursAt(trimmed, p, j);
    assert trimmed != "";
    OccursInPrefix(trimmed, "\n", p, j);
    OccursInPrefix(trimmed + "\n", stmt, p, j);
    OccursInPrefix(trimmed + "\n" + stmt, "\n", p, j);
  }

  /** An occurrence stays where it is when text is appended. */
  lemma OccursInPrefix(x: string, y: string, p: string, j: int)
    requires OccursAt(x, p, j)
    ensures OccursAt(x + y, p, j) && Contains(x + y, p)
  {
    assert (x + y)[j..j + |p|] == x[j..j + |p|];
    assert 0 <= j <= |x + y| - |p| && OccursAt(x + y, p, j);
  }

  /** After ensuring, the declaration is present. */
  lemma EnsuredContains(c: string, stmt: string)
    ensures Contains(Ensured(c, stmt), stmt)
  {
    if !Contains(c, stmt) {
      AppendedShape(c, stmt);
    }
  }

  /** Ensuring twice is ensuring once. */
  lemma EnsureIdempotent(c: string, stmt: string)
    ensures Ensured(Ensured(c, stmt), stmt) == Ensured(c, stmt)
  {
    EnsuredContains(c, stmt);
  }

  /** Ensuring one declaration keeps the others. */
  lemma EnsuredKeepsSolid(c: string, stmt: string, p: string)
    requires Solid(p) && Contains(c, p)
    ensures Contains(Ensured(c, stmt), p)
  {
    if !Contains(c, stmt) {
      AppendedKeepsSolid(c, stmt, p);
    }
  }

  /** Adding a declaration to a signed file keeps it signed. */
  lemma AppendedKeepsSignature(c: string, stmt: string)
    requires Signed(c)
    ensures Signed(Appended(c, stmt)) || Trim(c) == ""
  {
    if c != "" {
      SignatureIsSolid();
      AppendedKeepsSolidPrefix(c, stmt, Schema.FILE_SIGNATURE);
    }
  }

  lemma SignatureIsSolid()
    ensures Solid(Schema.FILE_SIGNATURE)
  {
    var front, back := "/* This file is generated", " and managed by dsync */";
    assert Schema.FILE_SIGNATURE == front + back;
    assert (front + back)[0] == front[0];
    assert (front + back)[48] == back[23];
  }

  /** Adding keeps a solid text the old contents start with. */
  lemma AppendedKeepsSolidPrefix(c: string, stmt: string, p: string)
    requires Solid(p) && StartsWith(c, p)
    ensures StartsWith(Appended(c, stmt), p)
  {
    TrimKeepsSolidPrefix(c, p);
    var trimmed := Trim(c);
    assert trimmed != "";
    StartsWithAppended(trimmed, "\n", p);
    StartsWithAppended(trimmed + "\n", stmt, p);
    StartsWithAppended(trimmed + "\n" + stmt, "\n", p);
  }

  lemma StartsWithAppended(x: string, y: string, p: string)
    requires StartsWith(x, p)
    ensures StartsWith(x + y, p)
  {
    assert (x + y)[..|p|] == x[..|p|];
  }

  // ---------------------------------------------------------------------
  // Removing

  /** Deleting every occurrence never lengthens the text, and shortens it by
      at least one declaration when there is one. */
  lemma {:induction false} ReplaceAllShrinks(s: string, pat: string)
    requires pat != []
    ensures |ReplaceAll(s, pat, "")| <= |s|
    ensures Contains(s, pat) ==> |ReplaceAll(s, pat, "")| <= |s| - |pat|
    decreases |s|
  {
    if |s| < |pat| {
    } else if s[..|pat|] == pat {
      ReplaceAllShrinks(s[|pat|..], pat);
    } else {
      ReplaceAllShrinks(s[1..], pat);
      if Contains(s, pat) {
        var i :| 0 <= i <= |s| - |pat| && OccursAt(s, pat, i);
        assert i != 0;
        assert s[1..][i - 1..i - 1 + |pat|] == s[i..i + |pat|];
        assert OccursAt(s[1..], pat, i - 1);
      }
    }
  }

  /** Without an occurrence, deleting occurrences changes nothing. */
  lemma {:induction false} ReplaceAllWithoutOccurrence(s: string, pat: string)
    requires pat != [] && !Contains(s, pat)
    ensures ReplaceAll(s, pat, "") == s
    decreases |s|
  {
    if |s| >= |pat| {
      assert !OccursAt(s, pat, 0);
      assert s[..|pat|] != pat;
      if Contains(s[1..], pat) {
        var i :| 0 <= i <= |s[1..]| - |pat| && OccursAt(s[1..], pat, i);
        assert s[i + 1..i + 1 + |pat|] == s[1..][i..i + |pat|];
        assert OccursAt(s, pat, i + 1);
      }
      ReplaceAllWithoutOccurrence(s[1..], pat);
      assert [s[0]] + s[1..] == s;
    }
  }

  /** Removing a declaration that is there makes the file strictly shorter;
      removing one that is not there changes nothing. */
  lemma RemovedShrinks(c: string, stmt: string)
    requires stmt != []
    ensures Contains(c, stmt) ==> |Removed(c, stmt)| < |c|
    ensures !Contains(c, stmt) ==> Removed(c, stmt) == c
  {
    ReplaceAllShrinks(c, stmt);
  }

  /** One step of `ReplaceAll` that keeps the first character, because the
      pattern does not start here. */
  lemma SkipFirst(s: string, pat: string, k: int)
    requires 0 <= k < |pat| <= |s| && s[k] != pat[k]
    ensures ReplaceAll(s, pat, "") == [s[0]] + ReplaceAll(s[1..], pat, "")
  {
    assert s[..|pat|][k] != pat[k];
  }

  /** One step of `ReplaceAll` that drops an occurrence at the start. */
  lemma DropFirst(s: string, pat: string)
    requires pat != [] && StartsWith(s, pat)
    ensures ReplaceAll(s, pat, "") == ReplaceAll(s[|pat|..], pat, "")
  {
  }

  /** The text of the counterexample below: a declaration of `x` wrapped
      inside the halves of another one. */
  function Nested(x: string): string {
    "pub m" + ModStmt(x) + "od " + x + ";"
  }

  /** Deleting occurrences keeps a prefix in which no occurrence starts. */
  lemma {:induction false} ReplaceAllKeepsPrefix(a: string, t: string, pat: string)
    requires pat != []
    requires forall i :: 0 <= i < |a| ==> !OccursAt(a + t, pat, i)
    ensures ReplaceAll(a + t, pat, "") == a + ReplaceAll(t, pat, "")
    decreases |a|
  {
    if a == [] {
      assert a + t == t;
    } else {
      var s := a + t;
      assert s[0] == a[0] && s[1..] == a[1..] + t;
      assert !OccursAt(s, pat, 0);
      ReplaceAllSkipsHead(s, pat);
      forall i | 0 <= i < |a[1..]|
        ensures !OccursAt(a[1..] + t, pat, i)
      {
        OccursAtTail(s, pat, i);
      }
      ReplaceAllKeepsPrefix(a[1..], t, pat);
      ConsAssoc(a, ReplaceAll(t, pat, ""));
    }
  }

  lemma OccursAtTail(s: string, pat: string, i: nat)
    requires s != []
    ensures OccursAt(s[1..], pat, i) <==> OccursAt(s, pat, i + 1)
  {
    if i + |pat| <= |s| - 1 {
      assert s[1..][i..i + |pat|] == s[i + 1..i + 1 + |pat|];
    }
  }

  lemma ConsAssoc(a: string, r: string)
    requires a != []
    ensures [a[0]] + (a[1..] + r) == a + r
  {
    assert a == [a[0]] + a[1..];
  }

  /** A character where no occurrence starts is kept in front. */
  lemma ReplaceAllSkipsHead(s: string, pat: string)
    requires pat != [] && s != [] && !OccursAt(s, pat, 0)
    ensures ReplaceAll(s, pat, "") == [s[0]] + ReplaceAll(s[1..], pat, "")
  {
    if |s| < |pat| {
      assert ReplaceAll(s[1..], pat, "") == s[1..];
      assert [s[0]] + s[1..] == s;
    } else {
      assert s[..|pat|] != pat by {
        assert s[0..|pat|] == s[..|pat|];
      }
    }
  }

  /** In `Nested(x)` the first occurrence starts after the five-character
      prefix `pub m`. */
  lemma NestedPrefix(x: string)
    ensures Nested(x) == "pub m" + (ModStmt(x) + ("od " + x + ";"))
    ensures forall i :: 0 <= i < 5 ==> !OccursAt(Nested(x), ModStmt(x), i)
  {
    var m := ModStmt(x);
    var s := Nested(x);
    assert m == "pub mod " + x + ";";
    assert s == "pub mpub mod " + x + ";od " + x + ";";
    assert m[0] == 'p' && m[5] == 'o';
    assert s[5] == 'p' && s[1] == 'u' && s[2] == 'b' && s[3] == ' ' && s[4] == 'm';
    forall i | 0 <= i < 5
      ensures !OccursAt(s, m, i)
    {
      if i == 0 {
        assert s[0 + 5] != m[5];
      } else {
        assert s[i] != m[0];
      }
    }
  }

  /** Gluing the outer halves of `Nested(x)` gives the declaration back. */
  lemma OuterHalvesJoin(x: string)
    ensures "pub m" + ("od " + x + ";") == ModStmt(x)
  {
    assert "pub m" + ("od " + x + ";") == ("pub m" + "od ") + x + ";";
    assert "pub m" + "od " == "pub mod ";
  }

  lemma NestedRemoval(x: string)
    ensures ReplaceAll(Nested(x), ModStmt(x), "") == ModStmt(x)
  {
    var m := ModStmt(x);
    var tail := "od " + x + ";";
    var t := m + tail;
    NestedPrefix(x);
    ReplaceAllKeepsPrefix("pub m", t, m);
    assert t[..|m|] == m && t[|m|..] == tail;
    DropFirst(t, m);
    assert |tail| < |m|;
    OuterHalvesJoin(x);
  }

  /** Removal does not guarantee absence: deleting the inner declaration of
      `pub mpub mod x;od x;` joins the two halves into a new one. */
  lemma RemovalCanRecreate(x: string)
    ensures Contains(Nested(x), ModStmt(x))
    ensures Removed(Nested(x), ModStmt(x)) == ModStmt(x)
  {
    NestedContains(x);
    NestedRemoval(x);
    StatementsAreSolid(x);
    SolidIsTrimmed(ModStmt(x));
  }

  lemma NestedContains(x: string)
    ensures Contains(Nested(x), ModStmt(x))
  {
    var m := ModStmt(x);
    var s := Nested(x);
    assert s[5..5 + |m|] == m;
    assert OccursAt(s, m, 5);
  }

  /** A solid text is its own trim. */
  lemma SolidIsTrimmed(u: string)
    requires Solid(u)
    ensures Trim(u) == u
  {
    assert TrimStart(u) == u;
    assert TrimEnd(u) == u;
  }

  /** Pass 1's two declarations, added to an empty per-table `mod.rs`. */
  lemma BuildTableMod()
    ensures Ensured(Ensured("", ModStmt("generated")), UseStmt("generated::*"))
            == ModStmt("generated") + "\n" + UseStmt("generated::*") + "\n"
  {
    var m := ModStmt("generated");
    var u := UseStmt("generated::*");
    assert |m| == 18 && |u| == 21;
    assert Trim("") == "";
    var s1 := m + "\n";
    assert Ensured("", m) == s1;
    assert !Contains(s1, u);
    assert m[0] == 'p' && m[17] == ';';
    assert TrimStart(s1) == s1;
    assert TrimEnd(s1) == TrimEnd(m);
    assert TrimEnd(m) == m;
    assert Trim(s1) == m;
  }

  /** A solid line between two newlines trims to itself. */
  lemma TrimAroundSolid(u: string)
    requires Solid(u)
    ensures Trim("\n" + u + "\n") == u
  {
    var t := u + "\n";
    assert "\n" + u + "\n" == ['\n'] + t;
    TrimStartSkips(['\n'], t);
    assert t[0] == u[0];
    assert TrimStart(t) == t;
    TrimEndSkips(u, ['\n']);
  }

  /** Leading whitespace is skipped by `TrimStart`. */
  lemma {:induction false} TrimStartSkips(w: string, t: string)
    requires forall i :: 0 <= i < |w| ==> IsWhitespace(w[i])
    ensures TrimStart(w + t) == TrimStart(t)
    decreases |w|
  {
    if w != [] {
      assert (w + t)[0] == w[0] && (w + t)[1..] == w[1..] + t;
      TrimStartSkips(w[1..], t);
    } else {
      assert w + t == t;
    }
  }

  /** Trailing whitespace is skipped by `TrimEnd`, and a solid text is
      kept whole. */
  lemma {:induction false} TrimEndSkips(t: string, w: string)
    requires Solid(t)
    requires forall i :: 0 <= i < |w| ==> IsWhitespace(w[i])
    ensures TrimEnd(t + w) == t
    decreases |w|
  {
    if w != [] {
      var s := t + w;
      assert s[|s| - 1] == w[|w| - 1];
      assert s[..|s| - 1] == t + w[..|w| - 1];
      TrimEndSkips(t, w[..|w| - 1]);
    } else {
      assert t + w == t;
    }
  }

  /** Removing a declaration that starts the text and does not occur again
      leaves the trimmed rest. */
  lemma RemoveLeading(m: string, rest: string)
    requires m != [] && !Contains(rest, m)
    ensures Removed(m + rest, m) == Trim(rest)
  {
    var s := m + rest;
    assert OccursAt(s, m, 0);
    DropFirst(s, m);
    assert s[|m|..] == rest;
    ReplaceAllWithoutOccurrence(rest, m);
  }

  lemma GeneratedUseLacksMod()
    ensures !Contains("\n" + UseStmt("generated::*") + "\n", ModStmt("generated"))
  {
    var m := ModStmt("generated");
    var rest := "\n" + UseStmt("generated::*") + "\n";
    assert rest == "\npub use generated::*;\n" && m == "pub mod generated;";
    forall i | 0 <= i <= |rest| - |m|
      ensures !OccursAt(rest, m, i)
    {
      assert rest[i + 4] != m[4];
    }
  }

  /** Pass 2 removes the `generated` module declaration first ... */
  lemma RemoveGeneratedMod()
    ensures Removed(ModStmt("generated") + "\n" + UseStmt("generated::*") + "\n", ModStmt("generated"))
            == UseStmt("generated::*")
  {
    var m := ModStmt("generated");
    var u := UseStmt("generated::*");
    var rest := "\n" + u + "\n";
    assert m + "\n" + u + "\n" == m + rest;
    GeneratedUseLacksMod();
    RemoveLeading(m, rest);
    StatementsAreSolid("generated::*");
    TrimAroundSolid(u);
  }

  /** ... then the re-export, which leaves nothing. */
  lemma RemoveGeneratedUse()
    ensures Removed(UseStmt("generated::*"), UseStmt("generated::*")) == ""
  {
    var u := UseStmt("generated::*");
    assert OccursAt(u, u, 0);
    DropFirst(u, u);
    assert u[|u|..] == "";
  }

  /** A per-table `mod.rs` that pass 1 builds from nothing (declare the
      `generated` module, then re-export it) is empty again after pass 2's
      two removals, so pass 2 deletes it. */
  lemma TableModRoundTrip()
    ensures var built := Ensured(Ensured("", ModStmt("generated")), UseStmt("generated::*"));
            Removed(Removed(built, ModStmt("generated")), UseStmt("generated::*")) == ""
  {
    BuildTableMod();
    RemoveGeneratedMod();
    RemoveGeneratedUse();
  }
}
