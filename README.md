# Core\Load: the autoloader's registration tables

`Core\Load` (haystack/framework/Library/Load.php) is the class autoloader of
the framework. It keeps four process-wide tables: a class map (class name to
file), an alias table (alias to class), the PSR-4 fallback directories and a
file list (`$files`). Nothing in the class reads or includes `$files`: it is
only declared and written when Composer's tables are copied in. Small static
methods insert into, merge into, append to
or prepend to these tables. `autoload($class)` then decides what to do for a
class the runtime cannot find:

1. if an alias is set for the name, declare the alias;
2. otherwise, if the class map holds a truthy file for it, include that file;
3. otherwise, load nothing.

The project has five files:

- `wrappers.dfy` holds `Option`.
- `php.dfy` restates the PHP built-ins the class uses on its own values:
  truthiness of strings (`Falsy`), `rtrim` with a one-character mask, and
  `array_merge` on string-keyed arrays.
- `registry.dfy` holds the tables as a value (`Tables`). It has one function
  per operation that says what the tables are afterwards. It also has the
  lookup, `FindFile` and `Decide`.
- `properties.dfy` holds lemmas that relate several operations.
- `load.dfy` holds the class `Load`. The static tables are its fields, and
  every method updates them in place. Each method is proved to leave exactly
  the tables that the matching `Registry` function describes. The method
  `RegistrationScenario` at the end is a client example: it shows what a
  caller can conclude from the class's contracts alone.

What the code does, where a reader might expect otherwise:

- **Lookup.** Only the class map is consulted. The PSR-0 and PSR-4 prefix
  search is not implemented: `addPsr0` has an empty body, and `addPsr4` with
  a prefix reaches an empty branch. So the model has no prefix resolver.
- **`addNamespace`.** A PSR-4 autoloader would store the namespace mapping.
  This one passes `$namespace . '\\'` to `addPsr4`; that prefix is never
  falsy, so the call reaches an empty branch and stores nothing.
- **Class map entries.** Having the key is not enough: an entry counts only
  when its file is truthy. A class mapped to `""` or `"0"` is not loaded.
- **Aliases.** `addClassAlias($alias)` without a class stores `null`. `isset`
  then reports the alias as absent, so the class map decides. The alias table
  therefore holds `Option<string>`.
- **What an alias yields.** It yields the target class for the runtime's
  `class_alias`. It does not resolve the target's file itself.
- **Falsy prefix to `addPsr4`.** The class uses `!$prefix`, so the prefix
  `"0"` behaves like the empty prefix and goes to the fallback list.

Three host values are parameters:

- PHP's `DIRECTORY_SEPARATOR` is the constructor argument `directorySeparator`.
- The root path comes from `getRootPath` and is a parameter of `Register`.
- The framework directory `dirname(__DIR__)` is a parameter of `Register`.

What `register` and `registerComposerLoader` read from disk is passed in as
values, with `None` for a file that does not exist.

## Model

| member | source | states |
|---|---|---|
| Php.Falsy | haystack/framework/Library/Load.php:215 | PHP truthiness (`empty()`, `!$x`) on strings, used at lines 102, 215 and 228: the empty string and `"0"` are falsy, every other string is truthy |
| Registry.IsAliased | haystack/framework/Library/Load.php:98 | `isset($classAlias[$class])`: true when the key is present with a non-null target, false for a missing key or a null target |
| Registry.AsList | haystack/framework/Library/Load.php:228-239 | `(array) $paths` at lines 231 and 237: one path becomes a one-element list, a list stays as it is |
| Php.RTrim | haystack/framework/Library/Load.php:169 | `rtrim($path, DIRECTORY_SEPARATOR)` yields a prefix of the input that does not end in the separator; everything it dropped is separators |
| Php.RTrimUnique | haystack/framework/Library/Load.php:169 | the three properties of RTrim determine its result: any prefix having them equals RTrim's result |
| Php.RTrimRemovesOnlyMask | haystack/framework/Library/Load.php:172 | the input equals the trimmed string followed by a run of separators |
| Php.RTrimIdempotent | haystack/framework/Library/Load.php:169 | trimming twice gives the same string as trimming once |
| Php.RTrimIgnoresTrailingRun | haystack/framework/Library/Load.php:169 | a path with any number of extra trailing separators trims to the same string |
| Php.ArrayMerge | haystack/framework/Library/Load.php:154 | `array_merge` on string keys: keys are the union; the second array's values win; other keys keep the first array's value |
| Php.ArrayMergeEmpty | haystack/framework/Library/Load.php:203-205 | merging an empty array changes nothing, so skipping an empty Composer class map is equivalent to merging it |
| Php.ArrayMergeAssociative | haystack/framework/Library/Load.php:123 | two merges in a row equal one merge with the merged arguments |
| Registry.FindFile | haystack/framework/Library/Load.php:213-219 | returns the class map's file exactly when the key exists and its value is neither `""` nor `"0"`, and no value otherwise |
| Registry.Decide | haystack/framework/Library/Load.php:98-112 | a set alias yields `Alias(target)` whatever the class map holds; otherwise a file that `findFile` finds is included, and it is truthy; otherwise nothing is loaded |
| Registry.AddClassAlias | haystack/framework/Library/Load.php:124-126 | the alias key is set to the target (null allowed); every other alias keeps its value; no other table changes |
| Registry.AddClassAliases | haystack/framework/Library/Load.php:122-123 | last-write-wins merge: keys are old keys plus new keys; new keys take the argument's value; others keep theirs; no other table changes |
| Registry.AddClassMapEntry | haystack/framework/Library/Load.php:155-157 | `classMap[class] == map`; every other key is unchanged; no other table changes |
| Registry.AddClassMap | haystack/framework/Library/Load.php:153-154 | last-write-wins merge into the class map; no other table changes |
| Registry.AddAutoLoadDir | haystack/framework/Library/Load.php:180-183 | the path is appended: the old list is a prefix, the length grows by one, the new last element is the path; nothing else changes |
| Registry.AddPsr4 | haystack/framework/Library/Load.php:226-244 | falsy prefix: the new fallback list is `paths + old` when prepending and `old + paths` otherwise, and a single path becomes one element; any other prefix changes no table |
| Registry.NamespacePrefixIsTruthy | haystack/framework/Library/Load.php:169 | a namespace followed by a backslash is never falsy |
| Registry.AddNamespace | haystack/framework/Library/Load.php:171-173 | `addNamespace($namespace, $path)` leaves every table unchanged |
| Registry.AddNamespaces | haystack/framework/Library/Load.php:167-170 | `addNamespace($array)` leaves every table unchanged, for any number of pairs |
| Registry.AddPsr4Entries | haystack/framework/Library/Load.php:194-199 | the PSR-4 loop changes only the fallback list, which gains the paths of the falsy-prefix entries at its end, in order |
| Registry.RegisterComposerLoader | haystack/framework/Library/Load.php:185-211 | PSR-0 entries change nothing; PSR-4 fallback paths are appended; the class map is merged in; the file list replaces `files`; aliases are untouched |
| Registry.CopyStaticLoader | haystack/framework/Library/Load.php:68-72 | each property the static loader declares replaces the matching table; the others and the aliases are kept |
| Registry.Register | haystack/framework/Library/Load.php:55-88 | aliases are untouched; `rootPath . 'extend'` ends the fallback list; every class of `runtime/classmap.php` maps to its cached file; with neither Composer nor a cache, only the `extend` directory is added |
| Properties.ClassMapEntryIsOneEntryMerge | haystack/framework/Library/Load.php:151-158 | both forms of `addClassMap` agree: one entry equals merging a one-entry array |
| Properties.ClassAliasIsOneEntryMerge | haystack/framework/Library/Load.php:120-127 | both forms of `addClassAlias` agree: one alias equals merging a one-entry array |
| Properties.ClassMapMergesCompose | haystack/framework/Library/Load.php:154 | two class-map merges equal one merge of the merged arrays, so the later registration wins |
| Properties.SecondAliasWins | haystack/framework/Library/Load.php:125 | registering one alias twice makes `autoload` use the second target |
| Properties.AutoLoadDirIsFallbackPsr4 | haystack/framework/Library/Load.php:180-183 | `addAutoLoadDir($p)` has the same effect as `addPsr4('', $p)` |
| Properties.EmptyTablesLoadNothing | haystack/framework/Library/Load.php:11-38 | with every table empty, no class is loaded |
| Properties.MappedClassIsIncluded | haystack/framework/Library/Load.php:102-111 | a class that is not aliased and is mapped to a truthy file is included from that file |
| Properties.FalsyFileHidesClass | haystack/framework/Library/Load.php:215 | mapping a class to `""` or `"0"` makes `findFile` return nothing for it, even if it had a file before |
| Properties.AliasOverridesClassMap | haystack/framework/Library/Load.php:98-100 | an alias with a target decides the outcome whatever the class map holds |
| Properties.NullAliasFallsThroughToClassMap | haystack/framework/Library/Load.php:98 | an alias registered with null is not `isset`: the class map decides, and an earlier alias for the name stops applying |
| Properties.ClassMapEntryAffectsOnlyItsClass | haystack/framework/Library/Load.php:156 | a class-map entry changes the decision for its own class only |
| Properties.AliasAffectsOnlyItsName | haystack/framework/Library/Load.php:125 | an alias changes the decision for its own name only |
| Properties.DecideIgnoresDirectoryTables | haystack/framework/Library/Load.php:96-113 | the decision depends on the alias table and the class map only |
| Properties.FindFileReadsOnlyClassMap | haystack/framework/Library/Load.php:213-219 | `findFile` depends on the class map only |
| Properties.DirectoryRegistrationKeepsDecisions | haystack/framework/Library/Load.php:180-183 | neither `addPsr4` nor `addAutoLoadDir` changes the decision for any class |
| Properties.FallbackPathsAppend | haystack/framework/Library/Load.php:196-198 | the fallback paths of two entry lists in a row are the first list's followed by the second's |
| Properties.Psr4EntriesCompose | haystack/framework/Library/Load.php:196-198 | registering PSR-4 entries in two batches equals registering both in one batch |
| Properties.BareRegisterLoadsNothing | haystack/framework/Library/Load.php:55-88 | without Composer and without a cached class map, `register` leaves only the `extend` directory, and no class is loaded |
| Properties.CachedClassMapIsHonoured | haystack/framework/Library/Load.php:83-85 | after `register`, a class from `runtime/classmap.php` with a truthy file, not aliased before, is included from that file |
| Autoload.Load.constructor | haystack/framework/Library/Load.php:11-38 | the tables start out empty |
| Autoload.Load.Autoload | haystack/framework/Library/Load.php:96-113 | returns exactly `Registry.Decide` of the current tables |
| Autoload.Load.FindFile | haystack/framework/Library/Load.php:213-219 | returns exactly `Registry.FindFile` of the current tables |
| Autoload.Load.AddClassAlias | haystack/framework/Library/Load.php:124-126 | the new tables are `Registry.AddClassAlias` of the old ones |
| Autoload.Load.AddClassAliases | haystack/framework/Library/Load.php:122-123 | the new tables are `Registry.AddClassAliases` of the old ones |
| Autoload.Load.AddClassMapEntry | haystack/framework/Library/Load.php:155-157 | the new tables are `Registry.AddClassMapEntry` of the old ones |
| Autoload.Load.AddClassMap | haystack/framework/Library/Load.php:153-154 | the new tables are `Registry.AddClassMap` of the old ones |
| Autoload.Load.AddAutoLoadDir | haystack/framework/Library/Load.php:180-183 | the new tables are `Registry.AddAutoLoadDir` of the old ones |
| Autoload.Load.AddPsr0 | haystack/framework/Library/Load.php:221-224 | no table changes |
| Autoload.Load.AddPsr4 | haystack/framework/Library/Load.php:226-244 | the new tables are `Registry.AddPsr4` of the old ones |
| Autoload.Load.AddNamespace | haystack/framework/Library/Load.php:171-173 | the tables are unchanged |
| Autoload.Load.AddNamespaces | haystack/framework/Library/Load.php:167-170 | loops over the pairs calling `addPsr4`; the tables are unchanged |
| Autoload.Load.RegisterComposerLoader | haystack/framework/Library/Load.php:185-211 | runs the PSR-0 and PSR-4 loops; the new tables are `Registry.RegisterComposerLoader` of the old ones |
| Autoload.Load.Register | haystack/framework/Library/Load.php:55-88 | the new tables are `Registry.Register` of the old ones |

## Left out

- `spl_autoload_register`, `class_alias`, `include`/`require`, `__include_file` and `__require_file` are host-runtime hooks and file execution. Their effect appears only as the returned `Decision`.
- The callback name that `register` passes to `spl_autoload_register` is not modelled. It is `Core\Library\Load::autoload`, while the class is declared as `Core\Load`.
- Whether the runtime calls `autoload` only once per class is not modelled. That belongs to the host runtime; the class itself uses `include`, not `include_once`.
- `getRootPath` reads `$_SERVER`, `PHP_SAPI` and `realpath`. Its result is the `rootPath` parameter of `Register`.
- The Windows case check in `autoload` (lines 105-108) depends on `PHP_OS` and on `realpath` against the real filesystem.
- The filesystem probes of `register` and `registerComposerLoader` are not modelled. These are `is_dir`, `is_file` and the `require` of generated files. What those files return is passed in, with `None` for a missing file.
- `register` finds Composer's class with `get_declared_classes` and `array_pop`. The model takes that class's static properties as given.
- `prefixLengthsPsr4`, `prefixDirsPsr4`, `prefixesPsr0` and `fallbackDirsPsr0` are not modelled. They are written only when the static loader is copied, and nothing in the class ever reads them.
- The model has no PSR-0 or PSR-4 prefix-to-directory resolution, because the class does not implement it.
- PHP arrays are ordered, but the model's class map and alias table are unordered maps. Lookups never depend on that order.
- `array_merge` renumbers integer and numeric-string keys. The model's keys are class names, which are non-numeric strings.
- For `files`, the model keeps only the paths of Composer's file table, not its identifier keys.
- The class map holds strings. A `null` file behaves like `""` for `findFile`.
- Argument type dispatch is not modelled. The `is_array` dispatch of `addClassMap`, `addClassAlias` and `addNamespace` becomes two methods each. `(array) $paths` in `addPsr4` becomes `PathArg`.
