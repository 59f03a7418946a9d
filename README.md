# Updater settings of yaml-updater, modelled in Dafny

This project models the configuration store of the YAML document updater:

- `UpdaterSettings`. This is the immutable configuration an update runs with: the auto-save, downgrading and keep-all flags, the three merge rules, the per-version tables of ignored routes and of relocations (each kept once by `Route` and once by string), and the versioning.
- Its `Builder`. The flag and versioning setters replace one field. `setMergeRules` and `setMergeRule` overwrite only the rules they are given. The table setters replace the entry of each version id they are given.
- The two lookups the updater makes per version id. `getIgnored` unions the route-based and the parsed string-based ignored routes. `getRelocations` merges the two relocation tables, and route-based entries win.
- `Primitive`, the one-field mutable cell of the `yamlupdater-core` module.

Files:

- `options.dfy`: `Option`. `None` stands for a Java `null`.
- `java_maps.dfy`: the `java.util.Map` operations the source uses, on Dafny maps. `put`, `putAll` and `computeIfAbsent` carry their meaning as contracts; `getOrDefault` is a plain definition.
- `route.dfy`: a `Route` is a `seq<string>`. The string-route parser `RouteFactory.create` is a function parameter `(separator, text) -> Route`, because its implementation is not part of this model. Every property is proved for every parser.
- `versioning.dfy`: what a `setVersioning` call stores. This is `Manual(pattern, documentVersionId?, defaultsVersionId)` or `Automatic(pattern, route)`, where the route is a `Route` or a string route.
- `updater_settings.dfy`: module `Updater`. `UpdaterSettings` is a datatype because its fields are final. `Builder` is a class whose methods update its fields. `Snapshot()` is the settings the builder's current fields make, and every setter states its new `Snapshot()` in terms of the old one. The lookups are methods with loops, like the source's `for` loops. They are proved against the reference definitions `IgnoredRoutes` and `IsMergedRelocations`.
- `primitive.dfy`: module `Utils`, class `Primitive`.

The plain getters (`getMergeRules`, `isKeepAll`, …) are the datatype's field selectors. The `return this` of the setters only enables call chaining. The setters here return nothing, and `FromSettings` makes the calls in sequence.

## Model

| member | source | states |
|---|---|---|
| `Updater.RuleHasEntry` | src/main/java/dev/dejvokep/boostedyaml/settings/updater/UpdaterSettings.java:59-63 | every merge rule has an entry in any value of the `MergeRules` subset type; Dafny checks that type at every assignment to a merge-rule field, which is what keeps the three defaults present (the setters only overwrite); the lemma states it per rule for the setters' proofs |
| `Updater.Default` | src/main/java/dev/dejvokep/boostedyaml/settings/updater/UpdaterSettings.java:46-72 | default settings: auto-save and downgrading on, keep-all off, MAPPINGS preserved, the other two rules not, all four tables empty, no versioning |
| `Updater.Builder.constructor` | src/main/java/dev/dejvokep/boostedyaml/settings/updater/UpdaterSettings.java:238-258 | a new builder holds exactly the default settings |
| `Updater.Builder.Build` | src/main/java/dev/dejvokep/boostedyaml/settings/updater/UpdaterSettings.java:96-106 | built settings hold exactly the builder's current configuration, field for field |
| `Updater.Builder.SetAutoSave` | src/main/java/dev/dejvokep/boostedyaml/settings/updater/UpdaterSettings.java:271-274 | the auto-save flag is replaced; nothing else changes |
| `Updater.Builder.SetEnableDowngrading` | src/main/java/dev/dejvokep/boostedyaml/settings/updater/UpdaterSettings.java:297-300 | the downgrading flag is replaced; nothing else changes |
| `Updater.Builder.SetKeepAll` | src/main/java/dev/dejvokep/boostedyaml/settings/updater/UpdaterSettings.java:310-313 | the keep-all flag is replaced; nothing else changes |
| `Updater.Builder.SetMergeRules` | src/main/java/dev/dejvokep/boostedyaml/settings/updater/UpdaterSettings.java:328-331 | the rules in the argument take its values, every other rule keeps its value, all three still have an entry |
| `Updater.Builder.SetMergeRule` | src/main/java/dev/dejvokep/boostedyaml/settings/updater/UpdaterSettings.java:344-347 | the given rule takes the given value whatever it was, the other two keep theirs |
| `Updater.Builder.SetIgnoredRoutes` | src/main/java/dev/dejvokep/boostedyaml/settings/updater/UpdaterSettings.java:363-366 | each given version id's route set replaces (does not union with) the stored one; other ids are untouched |
| `Updater.Builder.SetIgnoredRoutesFor` | src/main/java/dev/dejvokep/boostedyaml/settings/updater/UpdaterSettings.java:381-384 | the one version id's route set is replaced; other ids are untouched |
| `Updater.Builder.SetIgnoredStringRoutes` | src/main/java/dev/dejvokep/boostedyaml/settings/updater/UpdaterSettings.java:400-403 | as for route sets, on the string table |
| `Updater.Builder.SetIgnoredStringRoutesFor` | src/main/java/dev/dejvokep/boostedyaml/settings/updater/UpdaterSettings.java:419-422 | as for route sets, on the string table, for one id |
| `Updater.Builder.SetRelocations` | src/main/java/dev/dejvokep/boostedyaml/settings/updater/UpdaterSettings.java:439-442 | each given version id's relocation map replaces the stored one; other ids are untouched |
| `Updater.Builder.SetRelocationsFor` | src/main/java/dev/dejvokep/boostedyaml/settings/updater/UpdaterSettings.java:458-461 | the one version id's relocation map is replaced; other ids are untouched |
| `Updater.Builder.SetStringRelocations` | src/main/java/dev/dejvokep/boostedyaml/settings/updater/UpdaterSettings.java:481-484 | as for relocations, on the string table |
| `Updater.Builder.SetStringRelocationsFor` | src/main/java/dev/dejvokep/boostedyaml/settings/updater/UpdaterSettings.java:503-506 | as for relocations, on the string table, for one id |
| `Updater.Builder.SetVersioning` | src/main/java/dev/dejvokep/boostedyaml/settings/updater/UpdaterSettings.java:517-520 | the versioning is replaced (also by none); nothing else changes |
| `Updater.Builder.SetManualVersioning` | src/main/java/dev/dejvokep/boostedyaml/settings/updater/UpdaterSettings.java:541-543 | stores a Manual versioning with the pattern and both ids; nothing else changes |
| `Updater.Builder.SetAutomaticVersioning` | src/main/java/dev/dejvokep/boostedyaml/settings/updater/UpdaterSettings.java:557-559 | stores an Automatic versioning with the pattern and the route; nothing else changes |
| `Updater.Builder.SetAutomaticVersioningByString` | src/main/java/dev/dejvokep/boostedyaml/settings/updater/UpdaterSettings.java:573-575 | stores an Automatic versioning with the pattern and the string route; nothing else changes |
| `Updater.GetIgnored` | src/main/java/dev/dejvokep/boostedyaml/settings/updater/UpdaterSettings.java:128-143 | a route is ignored at an id iff it is in that id's route set or is the parse of one of that id's string routes; the result is empty when neither table has the id |
| `Updater.GetRelocations` | src/main/java/dev/dejvokep/boostedyaml/settings/updater/UpdaterSettings.java:153-166 | the sources are exactly the id's route-based sources plus its parsed string sources; every route-based relocation keeps its target; any other source maps to the parsed target of a string relocation parsing to it; empty when neither table has the id |
| `Updater.MergedRelocationsUnique` | src/main/java/dev/dejvokep/boostedyaml/settings/updater/UpdaterSettings.java:153-166 | without two string relocations that parse to one source with different targets, the merged map is unique, so repeated lookups agree |
| `Updater.StringRelocationAdded` | src/main/java/dev/dejvokep/boostedyaml/settings/updater/UpdaterSettings.java:161-162 | a parsed string source with no route-based relocation is always in the result, mapped to the parsed target of a string entry that has that source |
| `Updater.FromSettings` | src/main/java/dev/dejvokep/boostedyaml/settings/updater/UpdaterSettings.java:219-230 | the builder made from settings holds exactly those settings |
| `Updater.CopyRoundTrip` | src/main/java/dev/dejvokep/boostedyaml/settings/updater/UpdaterSettings.java:219-229 | building the builder made from settings gives back the same settings: flags, all merge rules, the four tables and the versioning |
| `Updater.MergeRuleLastCallWins` | src/main/java/dev/dejvokep/boostedyaml/settings/updater/UpdaterSettings.java:345 | in any builder state, of two `setMergeRule` calls for one rule the last decides; the other rules and all other fields keep their values |
| `Updater.IgnoredRoutesReplaced` | src/main/java/dev/dejvokep/boostedyaml/settings/updater/UpdaterSettings.java:382 | in any builder state, setting a version id's ignored routes twice stores only the second set for it; other ids and fields are untouched |
| `Updater.IgnoredAfterSet` | src/main/java/dev/dejvokep/boostedyaml/settings/updater/UpdaterSettings.java:381-384 | after `setIgnoredRoutes(id, routes)` and `build()`, `getIgnored(id)` is exactly `routes` plus the parsed string routes already held, so it contains `routes` |
| `Utils.Primitive.constructor` | yamlupdater-core/src/main/java/com/davidcubesvk/yamlUpdater/core/utils/Primitive.java:7-9 | a new cell holds the value it was given |
| `Utils.Primitive.Set` | yamlupdater-core/src/main/java/com/davidcubesvk/yamlUpdater/core/utils/Primitive.java:11-13 | afterwards the cell holds the new value, whatever it held before |
| `Utils.Primitive.Get` | yamlupdater-core/src/main/java/com/davidcubesvk/yamlUpdater/core/utils/Primitive.java:15-17 | returns the held value and modifies nothing |
| `Utils.LastSetWins` | yamlupdater-core/src/main/java/com/davidcubesvk/yamlUpdater/core/utils/Primitive.java:11-17 | after `set(a)` then `set(b)`, `get()` returns `b` |
| `Utils.SetTwiceIsSetOnce` | yamlupdater-core/src/main/java/com/davidcubesvk/yamlUpdater/core/utils/Primitive.java:11-13 | a second `set(a)` leaves the state the first one left |
| `Utils.GetTwiceAgrees` | yamlupdater-core/src/main/java/com/davidcubesvk/yamlUpdater/core/utils/Primitive.java:15-17 | two reads in a row return the same value, the one the cell holds |
| `Utils.NewThenGet` | yamlupdater-core/src/main/java/com/davidcubesvk/yamlUpdater/core/utils/Primitive.java:7-17 | a new cell reads back the value it was created with |

## Left out

- Route parsing (`RouteFactory`) is not part of this model. It is a total function parameter, so its escaping rules and any exception it throws on a malformed string route are not modelled.
- `Pattern`, `ManualVersioning`, `AutomaticVersioning` and `MergeRule` are not part of this model beyond the data the settings store. Version matching, comparison, downgrade detection and the fallback to the oldest version are done by code outside these files. The downgrade flag is modelled only as a stored boolean.
- `autoSave` triggers file saving, which is I/O. It is modelled only as a stored boolean.
- Aliasing is not modelled. In the source, `build()` hands the builder's own mutable maps to the settings, so a later builder call would also change settings already built. The single-id setters (lines 382, 420, 459, 505) store the caller's set or map itself. The bulk table setters (lines 364, 401, 440, 482) copy the outer map but keep references to its inner sets and maps. `setMergeRules` (line 329) copies the entries. So a later change to a caller's collection can reach settings already built. The model uses value semantics for every table.
- Updated-in-place Java collections (`HashSet`, `HashMap`) are Dafny values built step by step in the loops of `GetIgnored` and `GetRelocations`. The stored tables cannot change, because the settings are a value.
- GetRelocations: iteration order is not modelled. Two string keys can parse to the same source route with different targets. At lines 161-162 the first such entry wins, in the iteration order of the per-version map the caller supplied. Dafny maps have no order, so the contract allows any entry whose source parses to that route. `MergedRelocationsUnique` shows the result is determined whenever no such clash exists.
- Value mappers are not modelled: `src/test/java/dev/dejvokep/boostedyaml/updater/VersionedOperationsTest.java:40` calls `setMappers`, which this `UpdaterSettings` does not have.
- `Versioning` is closed to the two variants `Manual` and `Automatic`. Java's `setVersioning(Versioning)` accepts any implementation of the interface (the test passes a `BasicVersioning`, `VersionedOperationsTest.java:25`); other implementations are not modelled.
- `null` arguments are not modelled, except for a missing document version id and a missing versioning, which the source passes on (`builder(settings)` calls `setVersioning(null)` when there is no versioning).
- `Primitive` is generic over any `T`. Java's `null` as a stored value is just one more value of `T` here.
