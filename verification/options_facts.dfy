/** Properties of option resolution (src/lib.rs). */
module OptionsFacts {
  import opened Wrappers
  import opened Strings
  import opened Options

  /** A type needs the `'a` lifetime exactly when its Rust spelling borrows. */
  lemma StringLifetimeMatchesSpelling(t: StringType)
    ensures t.GetLifetime() == "" <==> t == StringType.String
    ensures t.GetLifetime() != "" <==> Contains(t.AsStr(), "'a")
  {
    match t
    case String =>
      forall i | 0 <= i <= |t.AsStr()| - 2 ensures !OccursAt(t.AsStr(), "'a", i) {
        assert t.AsStr()[i] != '\'';
      }
    case Str =>
      assert OccursAt(t.AsStr(), "'a", 1);
    case Cow =>
      assert OccursAt(t.AsStr(), "'a", 4);
  }

  lemma BytesLifetimeMatchesSpelling(t: BytesType)
    ensures t.GetLifetime() == "" <==> t == BytesType.Vec
    ensures t.GetLifetime() != "" <==> Contains(t.AsStr(), "'a")
  {
    match t
    case Vec =>
      forall i | 0 <= i <= |t.AsStr()| - 2 ensures !OccursAt(t.AsStr(), "'a", i) {
        assert t.AsStr()[i] != '\'';
      }
    case Slice =>
      assert OccursAt(t.AsStr(), "'a", 1);
    case Cow =>
      assert OccursAt(t.AsStr(), "'a", 4);
  }

  /** Layering a record over itself changes nothing. */
  lemma ApplyDefaultsToItself(d: TableOptions)
    ensures d.ApplyDefaults(d) == d
  {
  }

  /** Layering twice over the same defaults is the same as layering once. */
  lemma ApplyDefaultsIdempotent(t: TableOptions, d: TableOptions)
    ensures t.ApplyDefaults(d).ApplyDefaults(d) == t.ApplyDefaults(d)
  {
  }

  /** An unconfigured table gets the default options, except that read-only
      may be forced on by a prefix or suffix. */
  lemma UnconfiguredTableGetsDefaults(config: GenerationConfig, name: string)
    requires name !in config.tableOptions
    ensures config.Table(name)
            == config.defaultTableOptions.(readOnly := config.defaultTableOptions.readOnly || config.HasReadonlyAffix(name))
  {
    ApplyDefaultsToItself(config.defaultTableOptions);
  }
}
