/** Properties of the registration tables that relate several operations:
    how the scalar and array forms of a call agree, how registrations change
    what `autoload` decides, and what they leave alone. */
module Properties {
  import opened Wrappers
  import opened Php
  import opened Registry

  // ------------------------------------------------ scalar vs. array forms

  /** Registering one class-map entry is merging a one-entry array. */
  lemma ClassMapEntryIsOneEntryMerge(t: Tables, name: string, file: string)
    ensures AddClassMapEntry(t, name, file) == AddClassMap(t, map[name := file])
  {
  }

  /** Registering one alias is merging a one-entry array. */
  lemma ClassAliasIsOneEntryMerge(t: Tables, alias: string, target: Option<string>)
    ensures AddClassAlias(t, alias, target) == AddClassAliases(t, map[alias := target])
  {
  }

  /** Two class-map merges in a row are one merge of the merged arrays, so a
      key registered by the later call wins. */
  lemma ClassMapMergesCompose(t: Tables, a: map<string, string>, b: map<string, string>)
    ensures AddClassMap(AddClassMap(t, a), b) == AddClassMap(t, ArrayMerge(a, b))
  {
  }

  /** Registering the same alias twice keeps the second target. */
  lemma SecondAliasWins(t: Tables, alias: string, first: string, second: string)
    ensures Decide(AddClassAlias(AddClassAlias(t, alias, Some(first)), alias, Some(second)), alias)
         == Alias(second)
  {
  }

  /** `addAutoLoadDir($path)` does what `addPsr4('', $path)` does. */
  lemma AutoLoadDirIsFallbackPsr4(t: Tables, path: string)
    ensures AddAutoLoadDir(t, path) == AddPsr4(t, "", OnePath(path), false)
  {
  }

  // --------------------------------------------- lookup after registration

  /** Nothing registered: every class is left unloaded. */
  lemma EmptyTablesLoadNothing(name: string)
    ensures Decide(Empty(), name) == NoLoad
  {
  }

  /** A class mapped to a truthy file, and not aliased, is included from it. */
  lemma MappedClassIsIncluded(t: Tables, name: string, file: string)
    requires !IsAliased(t, name) && !Falsy(file)
    ensures Decide(AddClassMapEntry(t, name, file), name) == Include(file)
  {
  }

  /** Mapping a class to "" or "0" hides any file it had before: `findFile`
      then finds nothing for it. */
  lemma FalsyFileHidesClass(t: Tables, name: string, file: string)
    requires Falsy(file)
    ensures FindFile(AddClassMapEntry(t, name, file), name) == None
  {
  }

  /** An alias with a target decides the outcome, whatever the class map
      holds for that name. */
  lemma AliasOverridesClassMap(t: Tables, alias: string, target: string, m: map<string, string>)
    ensures Decide(AddClassAlias(t, alias, Some(target)).(classMap := m), alias) == Alias(target)
  {
  }

  /** An alias registered with a null class is not `isset`: it switches off
      an earlier alias for that name and leaves the decision to the class map. */
  lemma NullAliasFallsThroughToClassMap(t: Tables, alias: string)
    ensures Decide(AddClassAlias(t, alias, None), alias)
         == (if FindFile(t, alias).Some? then Include(FindFile(t, alias).value) else NoLoad)
  {
  }

  /** A class-map entry changes the decision for its own class only. */
  lemma ClassMapEntryAffectsOnlyItsClass(t: Tables, name: string, file: string, other: string)
    requires other != name
    ensures Decide(AddClassMapEntry(t, name, file), other) == Decide(t, other)
  {
  }

  /** An alias changes the decision for its own name only. */
  lemma AliasAffectsOnlyItsName(t: Tables, alias: string, target: Option<string>, other: string)
    requires other != alias
    ensures Decide(AddClassAlias(t, alias, target), other) == Decide(t, other)
  {
  }

  /** The lookup reads the alias table and the class map only. */
  lemma DecideIgnoresDirectoryTables(t: Tables, u: Tables, name: string)
    requires t.classMap == u.classMap && t.classAlias == u.classAlias
    ensures Decide(t, name) == Decide(u, name)
  {
  }

  /** `findFile` reads the class map only. */
  lemma FindFileReadsOnlyClassMap(t: Tables, u: Tables, name: string)
    requires t.classMap == u.classMap
    ensures FindFile(t, name) == FindFile(u, name)
  {
  }

  /** No directory registration changes what any class resolves to. */
  lemma DirectoryRegistrationKeepsDecisions(t: Tables, prefix: string, paths: PathArg, prepend: bool,
                                            dir: string, name: string)
    ensures Decide(AddPsr4(t, prefix, paths, prepend), name) == Decide(t, name)
    ensures Decide(AddAutoLoadDir(t, dir), name) == Decide(t, name)
  {
  }

  // ------------------------------------------------- order of fallbacks

  /** The fallback paths of two lists of PSR-4 entries in a row are those of
      the first list followed by those of the second. */
  lemma {:induction false} FallbackPathsAppend(a: seq<(string, PathArg)>, b: seq<(string, PathArg)>)
    ensures FallbackPaths(a + b) == FallbackPaths(a) + FallbackPaths(b)
    decreases |b|
  {
    if b == [] {
      assert a + b == a;
    } else {
      assert (a + b)[..|a + b| - 1] == a + b[..|b| - 1];
      FallbackPathsAppend(a, b[..|b| - 1]);
    }
  }

  /** PSR-4 entries registered in two batches give the fallback list one
      batch of both would give. */
  lemma Psr4EntriesCompose(t: Tables, a: seq<(string, PathArg)>, b: seq<(string, PathArg)>)
    ensures AddPsr4Entries(AddPsr4Entries(t, a), b) == AddPsr4Entries(t, a + b)
  {
    FallbackPathsAppend(a, b);
  }

  // ------------------------------------------------------------ register

  /** With no Composer directory and no cached class map, `register` leaves
      only the `extend` directory behind, and every class is unloaded. */
  lemma BareRegisterLoadsNothing(rootPath: string, coreDir: string, sep: char, name: string)
    ensures Register(Empty(), rootPath, coreDir, sep, NoComposer, None).fallbackDirs == [rootPath + "extend"]
    ensures Decide(Register(Empty(), rootPath, coreDir, sep, NoComposer, None), name) == NoLoad
  {
  }

  /** A class listed in `runtime/classmap.php` with a truthy file, and not
      aliased by Composer's tables, is included from that file after `register`. */
  lemma CachedClassMapIsHonoured(t: Tables, rootPath: string, coreDir: string, sep: char,
                                 composer: ComposerSource, cache: map<string, string>, name: string)
    requires name in cache && !Falsy(cache[name]) && !IsAliased(t, name)
    ensures Decide(Register(t, rootPath, coreDir, sep, composer, Some(cache)), name) == Include(cache[name])
  {
  }
}
