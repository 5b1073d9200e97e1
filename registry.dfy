/** The registration tables of the autoloader `Core\Load`, as values, with one
    function per operation that says what the tables are afterwards, and the
    lookup that `autoload` performs on them. The class in load.dfy keeps the
    same tables as fields and is proved to follow these functions. */
module Registry {
  import opened Wrappers
  import opened Php

  /** The four process-wide tables of `Core\Load`. An alias target is
      `None` when the alias was registered with a PHP `null` class. */
  datatype Tables = Tables(
    classMap: map<string, string>,
    classAlias: map<string, Option<string>>,
    fallbackDirs: seq<string>,
    files: seq<string>)

  /** The tables before anything is registered: every one starts out empty. */
  function Empty(): Tables {
    Tables(map[], map[], [], [])
  }

  /** The `$paths` argument of `addPsr4`: one directory or a list of them.
      `(array) $paths` turns it into a list. */
  datatype PathArg = OnePath(path: string) | PathList(paths: seq<string>)

  function AsList(p: PathArg): (r: seq<string>)
    ensures p.OnePath? ==> |r| == 1 && r[0] == p.path
    ensures p.PathList? ==> r == p.paths
  {
    match p
    case OnePath(d) => [d]
    case PathList(ds) => ds
  }

  /** What `autoload` decides for a requested class: declare it as an alias of
      another class, include a file, or do nothing. */
  datatype Decision = Alias(target: string) | Include(file: string) | NoLoad

  // ---------------------------------------------------------------- lookup

  /** `isset($classAlias[$name])`: the key is present and its value is not null. */
  predicate IsAliased(t: Tables, name: string)
    ensures IsAliased(t, name) ==> name in t.classAlias
    ensures name in t.classAlias && t.classAlias[name] == None ==> !IsAliased(t, name)
    ensures name in t.classAlias && t.classAlias[name] != None ==> IsAliased(t, name)
  {
    name in t.classAlias && t.classAlias[name].Some?
  }

  /** `findFile`: the class map's file for `name`, provided it is not falsy.
      Only the class map is consulted. */
  function FindFile(t: Tables, name: string): (r: Option<string>)
    ensures r.Some? <==> name in t.classMap && !Falsy(t.classMap[name])
    ensures r.Some? ==> r.value == t.classMap[name]
  {
    if name in t.classMap && !Falsy(t.classMap[name]) then Some(t.classMap[name]) else None
  }

  /** The decision part of `autoload`: an alias is honoured first, whatever the
      class map says; otherwise a file found by `findFile` is included;
      otherwise nothing is loaded. */
  function Decide(t: Tables, name: string): (d: Decision)
    ensures IsAliased(t, name) ==> d == Alias(t.classAlias[name].value)
    ensures d.Alias? ==> IsAliased(t, name)
    ensures d.Include? <==> !IsAliased(t, name) && FindFile(t, name).Some?
    ensures d.Include? ==> d.file == t.classMap[name] && !Falsy(d.file)
  {
    if IsAliased(t, name) then Alias(t.classAlias[name].value)
    else match FindFile(t, name)
      case Some(file) => Include(file)
      case None => NoLoad
  }

  // ---------------------------------------------------------- registration

  /** `addClassAlias($alias, $class)` with a single alias: that key is set (or
      overwritten) and nothing else changes. */
  function AddClassAlias(t: Tables, alias: string, target: Option<string>): (r: Tables)
    ensures r.classAlias.Keys == t.classAlias.Keys + {alias}
    ensures r.classAlias[alias] == target
    ensures forall k :: k in t.classAlias && k != alias ==> r.classAlias[k] == t.classAlias[k]
    ensures r == t.(classAlias := r.classAlias)
  {
    t.(classAlias := t.classAlias[alias := target])
  }

  /** `addClassAlias($array)`: the aliases are merged in, last write wins. */
  function AddClassAliases(t: Tables, entries: map<string, Option<string>>): (r: Tables)
    ensures r.classAlias.Keys == t.classAlias.Keys + entries.Keys
    ensures forall k :: k in entries ==> r.classAlias[k] == entries[k]
    ensures forall k :: k in t.classAlias && k !in entries ==> r.classAlias[k] == t.classAlias[k]
    ensures r == t.(classAlias := r.classAlias)
  {
    t.(classAlias := ArrayMerge(t.classAlias, entries))
  }

  /** `addClassMap($class, $map)` with a single class: that key is set (or
      overwritten) and nothing else changes. */
  function AddClassMapEntry(t: Tables, name: string, file: string): (r: Tables)
    ensures r.classMap.Keys == t.classMap.Keys + {name}
    ensures r.classMap[name] == file
    ensures forall k :: k in t.classMap && k != name ==> r.classMap[k] == t.classMap[k]
    ensures r == t.(classMap := r.classMap)
  {
    t.(classMap := t.classMap[name := file])
  }

  /** `addClassMap($array)`: the entries are merged in, last write wins. */
  function AddClassMap(t: Tables, entries: map<string, string>): (r: Tables)
    ensures r.classMap.Keys == t.classMap.Keys + entries.Keys
    ensures forall k :: k in entries ==> r.classMap[k] == entries[k]
    ensures forall k :: k in t.classMap && k !in entries ==> r.classMap[k] == t.classMap[k]
    ensures r == t.(classMap := r.classMap)
  {
    t.(classMap := ArrayMerge(t.classMap, entries))
  }

  /** `addAutoLoadDir($path)`: the directory goes to the end of the fallback
      list; the old list is kept as a prefix. */
  function AddAutoLoadDir(t: Tables, path: string): (r: Tables)
    ensures |r.fallbackDirs| == |t.fallbackDirs| + 1
    ensures t.fallbackDirs <= r.fallbackDirs
    ensures r.fallbackDirs[|t.fallbackDirs|] == path
    ensures r == t.(fallbackDirs := r.fallbackDirs)
  {
    t.(fallbackDirs := t.fallbackDirs + [path])
  }

  /** `addPsr4($prefix, $paths, $prepend)`. A falsy prefix puts the paths
      before or after the fallback directories, in their own order; any other
      prefix reaches a branch with an empty body and changes nothing. */
  function AddPsr4(t: Tables, prefix: string, paths: PathArg, prepend: bool): (r: Tables)
    ensures Falsy(prefix) && prepend ==> r.fallbackDirs == AsList(paths) + t.fallbackDirs
    ensures Falsy(prefix) && !prepend ==> r.fallbackDirs == t.fallbackDirs + AsList(paths)
    ensures Falsy(prefix) && paths.OnePath? ==>
      |r.fallbackDirs| == |t.fallbackDirs| + 1 &&
      paths.path == (if prepend then r.fallbackDirs[0] else r.fallbackDirs[|t.fallbackDirs|])
    ensures !Falsy(prefix) ==> r == t
    ensures r == t.(fallbackDirs := r.fallbackDirs)
  {
    if Falsy(prefix) then
      if prepend then t.(fallbackDirs := AsList(paths) + t.fallbackDirs)
      else t.(fallbackDirs := t.fallbackDirs + AsList(paths))
    else
      t
  }

  /** The PHP single-quoted literal '\\', one backslash, which `addNamespace`
      appends to every namespace. */
  const NamespaceSeparator: string := "\\"

  /** A namespace followed by a backslash is never falsy. */
  lemma NamespacePrefixIsTruthy(namespace: string)
    ensures !Falsy(namespace + NamespaceSeparator)
  {
    var p := namespace + NamespaceSeparator;
    assert p[|p| - 1] == '\\';
  }

  /** `addNamespace($namespace, $path)`: calls `addPsr4` with the prefix
      `$namespace . '\\'`, the path with trailing directory separators
      trimmed, and `prepend` set. The prefix is never falsy, so the tables
      are left as they were. */
  function AddNamespace(t: Tables, namespace: string, path: string, sep: char): (r: Tables)
    ensures r == t
  {
    NamespacePrefixIsTruthy(namespace);
    AddPsr4(t, namespace + NamespaceSeparator, OnePath(RTrim(path, sep)), true)
  }

  /** `addNamespace($array)`: `addNamespace` for every (namespace, path)
      pair in order; the tables are left as they were. */
  function AddNamespaces(t: Tables, entries: seq<(string, string)>, sep: char): (r: Tables)
    ensures r == t
    decreases |entries|
  {
    if entries == [] then t
    else
      var last := entries[|entries| - 1];
      AddNamespace(AddNamespaces(t, entries[..|entries| - 1], sep), last.0, last.1, sep)
  }

  /** The fallback directories a list of PSR-4 (prefix, paths) entries
      contributes when registered with `prepend` unset: the paths of the
      entries with a falsy prefix, concatenated in order. */
  function FallbackPaths(entries: seq<(string, PathArg)>): seq<string>
    decreases |entries|
  {
    if entries == [] then []
    else
      var last := entries[|entries| - 1];
      FallbackPaths(entries[..|entries| - 1]) + (if Falsy(last.0) then AsList(last.1) else [])
  }

  /** The PSR-4 loop of `registerComposerLoader`: `addPsr4($namespace, $path)`
      for every entry in order. Only the fallback list changes, and it gains
      the entries' fallback paths at its end. */
  function AddPsr4Entries(t: Tables, entries: seq<(string, PathArg)>): (r: Tables)
    ensures r == t.(fallbackDirs := t.fallbackDirs + FallbackPaths(entries))
    decreases |entries|
  {
    if entries == [] then t
    else
      var last := entries[|entries| - 1];
      AddPsr4(AddPsr4Entries(t, entries[..|entries| - 1]), last.0, last.1, false)
  }

  /** The contents of the Composer files `registerComposerLoader` reads;
      `None` where the file does not exist. */
  datatype ComposerFiles = ComposerFiles(
    namespaces: Option<seq<(string, PathArg)>>,   // autoload_namespaces.php
    psr4: Option<seq<(string, PathArg)>>,         // autoload_psr4.php
    classMap: Option<map<string, string>>,        // autoload_classmap.php
    files: Option<seq<string>>)                   // autoload_files.php

  /** `registerComposerLoader`: PSR-0 namespaces change nothing, PSR-4
      entries add their fallback paths, a non-empty class map is merged in,
      and the file list, if present, replaces `files`. */
  function RegisterComposerLoader(t: Tables, f: ComposerFiles): (r: Tables)
    ensures r.classAlias == t.classAlias
    ensures r.fallbackDirs == t.fallbackDirs + (if f.psr4.Some? then FallbackPaths(f.psr4.value) else [])
    ensures r.classMap == if f.classMap.Some? then ArrayMerge(t.classMap, f.classMap.value) else t.classMap
    ensures r.files == if f.files.Some? then f.files.value else t.files
  {
    var t1 := if f.psr4.Some? then AddPsr4Entries(t, f.psr4.value) else t;
    var t2 := if f.classMap.Some? && f.classMap.value != map[] then AddClassMap(t1, f.classMap.value) else t1;
    if f.files.Some? then t2.(files := f.files.value) else t2
  }

  /** Where `register` finds Composer's tables: no `vendor/composer/`
      directory, the static loader class (each table `None` when the class
      does not declare it), or the individual generated files. */
  datatype ComposerSource =
    | NoComposer
    | StaticLoader(classMap: Option<map<string, string>>,
                   fallbackDirsPsr4: Option<seq<string>>,
                   files: Option<seq<string>>)
    | GeneratedFiles(contents: ComposerFiles)

  /** Copying the static loader's properties: each declared table replaces
      the loader's own. */
  function CopyStaticLoader(t: Tables, classMap: Option<map<string, string>>,
                            fallbackDirs: Option<seq<string>>, files: Option<seq<string>>): (r: Tables)
    ensures r.classAlias == t.classAlias
    ensures r.classMap == (if classMap.Some? then classMap.value else t.classMap)
    ensures r.fallbackDirs == (if fallbackDirs.Some? then fallbackDirs.value else t.fallbackDirs)
    ensures r.files == (if files.Some? then files.value else t.files)
  {
    var t1 := if classMap.Some? then t.(classMap := classMap.value) else t;
    var t2 := if fallbackDirs.Some? then t1.(fallbackDirs := fallbackDirs.value) else t1;
    if files.Some? then t2.(files := files.value) else t2
  }

  /** The registration sequence of `register`, given the root path, the
      framework's own directory, what Composer provides and the contents of
      `runtime/classmap.php` (`None` when that file does not exist). */
  function Register(t: Tables, rootPath: string, coreDir: string, sep: char,
                    composer: ComposerSource, runtimeClassMap: Option<map<string, string>>): (r: Tables)
    ensures r.classAlias == t.classAlias
    ensures |r.fallbackDirs| > 0 && r.fallbackDirs[|r.fallbackDirs| - 1] == rootPath + "extend"
    ensures runtimeClassMap.Some? ==>
      forall k :: k in runtimeClassMap.value ==> k in r.classMap && r.classMap[k] == runtimeClassMap.value[k]
    ensures composer.NoComposer? && runtimeClassMap.None? ==>
      r == t.(fallbackDirs := t.fallbackDirs + [rootPath + "extend"])
  {
    var t1 := match composer
      case NoComposer => t
      case StaticLoader(cm, fd, fl) => CopyStaticLoader(t, cm, fd, fl)
      case GeneratedFiles(f) => RegisterComposerLoader(t, f);
    var t2 := AddNamespaces(t1, [("Core", coreDir)], sep);
    var t3 := if runtimeClassMap.Some? then AddClassMap(t2, runtimeClassMap.value) else t2;
    AddAutoLoadDir(t3, rootPath + "extend")
  }
}
