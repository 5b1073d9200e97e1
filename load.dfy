/** The autoloader class `Core\Load`. Its static tables are the fields of one
    `Load` object; every registration method updates them in place and is
    proved to leave exactly the tables the matching function of `Registry`
    describes. */
module Autoload {
  import opened Wrappers
  import opened Php
  import Registry

  class Load {
    var classMap: map<string, string>
    var classAlias: map<string, Option<string>>
    var fallbackDirs: seq<string>      // $fallbackDirsPsr4
    var files: seq<string>
    /** PHP's DIRECTORY_SEPARATOR on the host. */
    const directorySeparator: char

    /** The tables as one value. */
    ghost function State(): Registry.Tables
      reads this
    {
      Registry.Tables(classMap, classAlias, fallbackDirs, files)
    }

    /** The loader before any registration: every table is empty. */
    constructor (directorySeparator: char)
      ensures State() == Registry.Empty()
      ensures this.directorySeparator == directorySeparator
    {
      classMap, classAlias, fallbackDirs, files := map[], map[], [], [];
      this.directorySeparator := directorySeparator;
    }

    /** `autoload($class)` up to the point where it hands over to the runtime:
        the alias to declare, the file to include, or nothing. */
    method Autoload(name: string) returns (d: Registry.Decision)
      ensures d == Registry.Decide(State(), name)
    {
      if name in classAlias && classAlias[name].Some? {
        return Registry.Alias(classAlias[name].value);
      }
      var file := FindFile(name);
      if file.Some? {
        return Registry.Include(file.value);
      }
      return Registry.NoLoad;
    }

    /** `findFile($class)`. */
    method FindFile(name: string) returns (file: Option<string>)
      ensures file == Registry.FindFile(State(), name)
    {
      if name in classMap && !Falsy(classMap[name]) {
        file := Some(classMap[name]);
      } else {
        file := None;
      }
    }

    /** `addClassAlias($alias, $class)`. */
    method AddClassAlias(alias: string, target: Option<string> := None)
      modifies this
      ensures State() == Registry.AddClassAlias(old(State()), alias, target)
    {
      classAlias := classAlias[alias := target];
    }

    /** `addClassAlias($array)`. */
    method AddClassAliases(entries: map<string, Option<string>>)
      modifies this
      ensures State() == Registry.AddClassAliases(old(State()), entries)
    {
      classAlias := ArrayMerge(classAlias, entries);
    }

    /** `addClassMap($class, $map)`. */
    method AddClassMapEntry(name: string, file: string := "")
      modifies this
      ensures State() == Registry.AddClassMapEntry(old(State()), name, file)
    {
      classMap := classMap[name := file];
    }

    /** `addClassMap($array)`. */
    method AddClassMap(entries: map<string, string>)
      modifies this
      ensures State() == Registry.AddClassMap(old(State()), entries)
    {
      classMap := ArrayMerge(classMap, entries);
    }

    /** `addAutoLoadDir($path)`. */
    method AddAutoLoadDir(path: string)
      modifies this
      ensures State() == Registry.AddAutoLoadDir(old(State()), path)
    {
      fallbackDirs := fallbackDirs + [path];
    }

    /** `addPsr0`: the body is empty. */
    method AddPsr0(prefix: string, paths: Registry.PathArg, prepend: bool := false)
      ensures State() == old(State())
    {
    }

    /** `addPsr4($prefix, $paths, $prepend)`. */
    method AddPsr4(prefix: string, paths: Registry.PathArg, prepend: bool := false)
      modifies this
      ensures State() == Registry.AddPsr4(old(State()), prefix, paths, prepend)
    {
      if Falsy(prefix) {
        if prepend {
          fallbackDirs := Registry.AsList(paths) + fallbackDirs;
        } else {
          fallbackDirs := fallbackDirs + Registry.AsList(paths);
        }
      } else {
        // a prefixed registration: the branch has no statements
      }
    }

    /** `addNamespace($namespace, $path)`. */
    method AddNamespace(namespace: string, path: string := "")
      modifies this
      ensures State() == Registry.AddNamespace(old(State()), namespace, path, directorySeparator)
      ensures State() == old(State())
    {
      AddPsr4(namespace + Registry.NamespaceSeparator, Registry.OnePath(RTrim(path, directorySeparator)), true);
    }

    /** `addNamespace($array)`: one `addPsr4` per (namespace, path) pair. */
    method AddNamespaces(entries: seq<(string, string)>)
      modifies this
      ensures State() == Registry.AddNamespaces(old(State()), entries, directorySeparator)
      ensures State() == old(State())
    {
      var i := 0;
      while i < |entries|
        invariant 0 <= i <= |entries|
        invariant State() == Registry.AddNamespaces(old(State()), entries[..i], directorySeparator)
      {
        var (namespace, path) := entries[i];
        AddPsr4(namespace + Registry.NamespaceSeparator, Registry.OnePath(RTrim(path, directorySeparator)), true);
        assert entries[..i + 1][..i] == entries[..i];
        i := i + 1;
      }
      assert entries[..i] == entries;
    }

    /** `registerComposerLoader`, given the contents of the generated files. */
    method RegisterComposerLoader(f: Registry.ComposerFiles)
      modifies this
      ensures State() == Registry.RegisterComposerLoader(old(State()), f)
    {
      if f.namespaces.Some? {
        var i := 0;
        while i < |f.namespaces.value|
          invariant 0 <= i <= |f.namespaces.value|
          invariant State() == old(State())
        {
          var (namespace, path) := f.namespaces.value[i];
          AddPsr0(namespace, path);
          i := i + 1;
        }
      }
      if f.psr4.Some? {
        var entries := f.psr4.value;
        var i := 0;
        while i < |entries|
          invariant 0 <= i <= |entries|
          invariant State() == Registry.AddPsr4Entries(old(State()), entries[..i])
        {
          var (namespace, path) := entries[i];
          AddPsr4(namespace, path);
          assert entries[..i + 1][..i] == entries[..i];
          i := i + 1;
        }
        assert entries[..i] == entries;
      }
      if f.classMap.Some? && f.classMap.value != map[] {
        AddClassMap(f.classMap.value);
      }
      if f.files.Some? {
        files := f.files.value;
      }
    }

    /** The registration sequence of `register`: Composer's tables, the
        framework's own namespace, the cached class map and the `extend`
        directory. */
    method Register(rootPath: string, coreDir: string, composer: Registry.ComposerSource,
                    runtimeClassMap: Option<map<string, string>>)
      modifies this
      ensures State() == Registry.Register(old(State()), rootPath, coreDir, directorySeparator,
                                           composer, runtimeClassMap)
    {
      match composer {
        case NoComposer =>
        case StaticLoader(cm, fd, fl) =>
          if cm.Some? { classMap := cm.value; }
          if fd.Some? { fallbackDirs := fd.value; }
          if fl.Some? { files := fl.value; }
        case GeneratedFiles(contents) =>
          RegisterComposerLoader(contents);
      }
      AddNamespaces([("Core", coreDir)]);
      if runtimeClassMap.Some? {
        AddClassMap(runtimeClassMap.value);
      }
      AddAutoLoadDir(rootPath + "extend");
    }
  }

  /** A client of the class: what the contracts alone let a caller conclude. */
  method RegistrationScenario(name: string, file: string, target: string)
    requires !Falsy(file)
  {
    var loader := new Load('/');
    var d := loader.Autoload(name);
    assert d == Registry.NoLoad;
    loader.AddClassMapEntry(name, file);
    loader.AddNamespace("App", "/srv/app//");
    loader.AddAutoLoadDir("/srv/extend");
    d := loader.Autoload(name);
    assert d == Registry.Include(file);
    loader.AddClassAlias(name, Some(target));
    d := loader.Autoload(name);
    assert d == Registry.Alias(target);
    loader.AddClassAlias(name, None);
    d := loader.Autoload(name);
    assert d == Registry.Include(file);
  }
}
