/**
 * Updater settings: the immutable configuration of document updating, its
 * builder, and the two per-version lookups that merge the route-based and the
 * string-based tables.
 */
module Updater {
  import opened Options
  import opened Routes
  import opened Dvs
  import JavaMaps

  /** The three type-conflict shapes the merge distinguishes. */
  datatype MergeRule = Mappings | MappingAtSection | SectionAtMapping

  /** For each merge rule, whether to preserve the document's content instead of
      the defaults'. Every such map holds an entry for all three rules. */
  type MergeRules = m: map<MergeRule, bool> | Mappings in m && MappingAtSection in m && SectionAtMapping in m
    witness map[Mappings := true, MappingAtSection := false, SectionAtMapping := false]

  /** Every rule has an entry in a merge-rule map. */
  lemma RuleHasEntry(rules: MergeRules, rule: MergeRule)
    ensures rule in rules
  {
  }

  const DefaultAutoSave: bool := true
  const DefaultEnableDowngrading: bool := true
  const DefaultKeepAll: bool := false
  const DefaultMergeRules: MergeRules :=
    map[Mappings := true, MappingAtSection := false, SectionAtMapping := false]
  const DefaultVersioning: Option<Versioning> := None

  /** Built settings. The maps are keyed by version id. */
  datatype UpdaterSettings = UpdaterSettings(
    autoSave: bool,
    enableDowngrading: bool,
    keepAll: bool,
    mergeRules: MergeRules,
    ignored: map<string, set<Route>>,
    stringIgnored: map<string, set<string>>,
    relocations: map<string, map<Route, Route>>,
    stringRelocations: map<string, map<string, string>>,
    versioning: Option<Versioning>)

  /** The settings a builder holds before any setter is called. */
  const DefaultSettings: UpdaterSettings := UpdaterSettings(
    DefaultAutoSave, DefaultEnableDowngrading, DefaultKeepAll, DefaultMergeRules,
    map[], map[], map[], map[], DefaultVersioning)

  // ---------------------------------------------------------------------------
  // Ignored routes

  /** The string routes ignored at `versionId`, each parsed with `separator`. */
  ghost function ParsedIgnored(s: UpdaterSettings, versionId: string, separator: char, create: RouteFactory): set<Route> {
    set text | text in JavaMaps.GetOrDefault(s.stringIgnored, versionId, {}) :: create(separator, text)
  }

  /** The routes to ignore at `versionId`: the route-based ones together with
      the parsed string-based ones. */
  ghost function IgnoredRoutes(s: UpdaterSettings, versionId: string, separator: char, create: RouteFactory): set<Route> {
    JavaMaps.GetOrDefault(s.ignored, versionId, {}) + ParsedIgnored(s, versionId, separator, create)
  }

  /** `getIgnored(versionId, separator)`: builds a fresh set from the
      route-based entry and adds every parsed string route. */
  method GetIgnored(s: UpdaterSettings, versionId: string, separator: char, create: RouteFactory)
    returns (r: set<Route>)
    ensures r == IgnoredRoutes(s, versionId, separator, create)
    ensures forall route :: route in r <==>
      || (versionId in s.ignored && route in s.ignored[versionId])
      || (versionId in s.stringIgnored &&
          exists text :: text in s.stringIgnored[versionId] && create(separator, text) == route)
    ensures versionId !in s.ignored && versionId !in s.stringIgnored ==> r == {}
  {
    r := JavaMaps.GetOrDefault(s.ignored, versionId, {});
    ghost var base := r;
    if versionId in s.stringIgnored {
      var texts := s.stringIgnored[versionId];
      var rest := texts;
      ghost var done: set<string> := {};
      while rest != {}
        invariant rest + done == texts && rest !! done
        invariant r == base + set text | text in done :: create(separator, text)
        decreases rest
      {
        var text :| text in rest;
        r := r + {create(separator, text)};
        rest := rest - {text};
        done := done + {text};
      }
      assert done == texts;
    }
  }

  // ---------------------------------------------------------------------------
  // Relocations

  /** The parsed source routes of the string relocations at `versionId`. */
  ghost function ParsedRelocationKeys(s: UpdaterSettings, versionId: string, separator: char, create: RouteFactory): set<Route> {
    set text | text in JavaMaps.GetOrDefault(s.stringRelocations, versionId, map[]) :: create(separator, text)
  }

  /**
   * `r` is a merge of the relocations at `versionId`: its sources are the
   * route-based ones plus the parsed string ones; a route-based relocation keeps
   * its target; any other source maps to the parsed target of a string
   * relocation whose source parses to it. Which one, when several do, depends
   * on the iteration order of the per-version map the caller supplied, which
   * is not modelled.
   */
  ghost predicate IsMergedRelocations(s: UpdaterSettings, versionId: string, separator: char, create: RouteFactory,
                                      r: map<Route, Route>)
  {
    var base := JavaMaps.GetOrDefault(s.relocations, versionId, map[]);
    var texts := JavaMaps.GetOrDefault(s.stringRelocations, versionId, map[]);
    && r.Keys == base.Keys + ParsedRelocationKeys(s, versionId, separator, create)
    && (forall from :: from in base ==> r[from] == base[from])
    && (forall from :: from in r && from !in base ==>
          exists text :: text in texts && create(separator, text) == from && r[from] == create(separator, texts[text]))
  }

  /** `getRelocations(versionId, separator)`: copies the route-based entry and
      adds each string relocation with `computeIfAbsent`, so route-based
      relocations (and earlier string ones) are never replaced. */
  method GetRelocations(s: UpdaterSettings, versionId: string, separator: char, create: RouteFactory)
    returns (r: map<Route, Route>)
    ensures IsMergedRelocations(s, versionId, separator, create, r)
    ensures versionId in s.relocations ==>
      forall from :: from in s.relocations[versionId] ==> from in r && r[from] == s.relocations[versionId][from]
    ensures versionId !in s.relocations && versionId !in s.stringRelocations ==> r == map[]
  {
    r := JavaMaps.GetOrDefault(s.relocations, versionId, map[]);
    ghost var base := r;
    if versionId in s.stringRelocations {
      var texts := s.stringRelocations[versionId];
      var rest := texts.Keys;
      ghost var done: set<string> := {};
      while rest != {}
        invariant rest + done == texts.Keys && rest !! done
        invariant r.Keys == base.Keys + set text | text in done :: create(separator, text)
        invariant forall from :: from in base ==> r[from] == base[from]
        invariant forall from :: from in r && from !in base ==>
          exists text :: text in done && create(separator, text) == from && r[from] == create(separator, texts[text])
        decreases rest
      {
        var key :| key in rest;
        var target := texts[key];
        ghost var before := r;
        r := JavaMaps.ComputeIfAbsent(r, create(separator, key), (route: Route) => create(separator, target));
        rest := rest - {key};
        done := done + {key};
        forall from | from in r && from !in base
          ensures exists text :: text in done && create(separator, text) == from && r[from] == create(separator, texts[text])
        {
          if from !in before {
            assert from == create(separator, key) && r[from] == create(separator, texts[key]);
          }
        }
      }
      assert done == texts.Keys;
    }
  }

  /** No two string relocations at `versionId` parse to the same source with
      different parsed targets. */
  ghost predicate NoStringClash(s: UpdaterSettings, versionId: string, separator: char, create: RouteFactory) {
    var texts := JavaMaps.GetOrDefault(s.stringRelocations, versionId, map[]);
    forall a, b :: a in texts && b in texts && create(separator, a) == create(separator, b) ==>
      create(separator, texts[a]) == create(separator, texts[b])
  }

  /** Without clashing string relocations the merge has exactly one result, so
      calling `getRelocations` twice gives equal maps. */
  lemma MergedRelocationsUnique(s: UpdaterSettings, versionId: string, separator: char, create: RouteFactory,
                                r1: map<Route, Route>, r2: map<Route, Route>)
    requires NoStringClash(s, versionId, separator, create)
    requires IsMergedRelocations(s, versionId, separator, create, r1)
    requires IsMergedRelocations(s, versionId, separator, create, r2)
    ensures r1 == r2
  {
  }

  /** A parsed string source that no route-based relocation has is always
      present, and maps to the parsed target of some string relocation. */
  lemma StringRelocationAdded(s: UpdaterSettings, versionId: string, separator: char, create: RouteFactory,
                              r: map<Route, Route>, text: string)
    requires IsMergedRelocations(s, versionId, separator, create, r)
    requires versionId in s.stringRelocations && text in s.stringRelocations[versionId]
    requires versionId !in s.relocations || create(separator, text) !in s.relocations[versionId]
    ensures create(separator, text) in r
    ensures exists other :: && other in s.stringRelocations[versionId]
                            && create(separator, other) == create(separator, text)
                            && r[create(separator, text)] == create(separator, s.stringRelocations[versionId][other])
  {
  }

  // ---------------------------------------------------------------------------
  // Builder

  class Builder {
    var autoSave: bool
    var enableDowngrading: bool
    var keepAll: bool
    var mergeRules: MergeRules
    var ignored: map<string, set<Route>>
    var stringIgnored: map<string, set<string>>
    var relocations: map<string, map<Route, Route>>
    var stringRelocations: map<string, map<string, string>>
    var versioning: Option<Versioning>

    /** The settings `build()` makes of the builder's current fields. */
    ghost function Snapshot(): UpdaterSettings
      reads this
    {
      UpdaterSettings(autoSave, enableDowngrading, keepAll, mergeRules,
                      ignored, stringIgnored, relocations, stringRelocations, versioning)
    }

    /** `builder()`: a builder holding every default. */
    constructor ()
      ensures Snapshot() == DefaultSettings
    {
      autoSave := DefaultAutoSave;
      enableDowngrading := DefaultEnableDowngrading;
      keepAll := DefaultKeepAll;
      mergeRules := DefaultMergeRules;
      ignored := map[];
      stringIgnored := map[];
      relocations := map[];
      stringRelocations := map[];
      versioning := DefaultVersioning;
    }

    /** `build()`: settings holding exactly the builder's current configuration. */
    method Build() returns (s: UpdaterSettings)
      ensures s == Snapshot()
    {
      s := UpdaterSettings(autoSave, enableDowngrading, keepAll, mergeRules,
                           ignored, stringIgnored, relocations, stringRelocations, versioning);
    }

    method SetAutoSave(autoSave: bool)
      modifies this
      ensures Snapshot() == old(Snapshot()).(autoSave := autoSave)
    {
      this.autoSave := autoSave;
    }

    method SetEnableDowngrading(enableDowngrading: bool)
      modifies this
      ensures Snapshot() == old(Snapshot()).(enableDowngrading := enableDowngrading)
    {
      this.enableDowngrading := enableDowngrading;
    }

    method SetKeepAll(keepAll: bool)
      modifies this
      ensures Snapshot() == old(Snapshot()).(keepAll := keepAll)
    {
      this.keepAll := keepAll;
    }

    /** `setMergeRules(rules)`: overwrites only the rules present in `rules`. */
    method SetMergeRules(rules: map<MergeRule, bool>)
      modifies this
      ensures forall rule :: rule in rules ==> rule in mergeRules && mergeRules[rule] == rules[rule]
      ensures forall rule :: rule !in rules ==>
        rule in mergeRules && rule in old(mergeRules) && mergeRules[rule] == old(mergeRules)[rule]
      ensures Snapshot() == old(Snapshot()).(mergeRules := mergeRules)
    {
      mergeRules := JavaMaps.PutAll(mergeRules, rules);
      forall rule | rule !in rules
        ensures rule in old(mergeRules)
      {
        RuleHasEntry(old(mergeRules), rule);
      }
    }

    /** `setMergeRule(rule, preserveDocument)`: overwrites one rule. */
    method SetMergeRule(rule: MergeRule, preserveDocument: bool)
      modifies this
      ensures mergeRules[rule] == preserveDocument
      ensures forall other :: other != rule ==>
        other in mergeRules && other in old(mergeRules) && mergeRules[other] == old(mergeRules)[other]
      ensures Snapshot() == old(Snapshot()).(mergeRules := mergeRules)
    {
      mergeRules := JavaMaps.Put(mergeRules, rule, preserveDocument);
    }

    /** `setIgnoredRoutes(routes)`: replaces the entry of every version id in `routes`. */
    method SetIgnoredRoutes(routes: map<string, set<Route>>)
      modifies this
      ensures JavaMaps.Overwrites(old(ignored), routes, ignored)
      ensures Snapshot() == old(Snapshot()).(ignored := ignored)
    {
      ignored := JavaMaps.PutAll(ignored, routes);
    }

    /** `setIgnoredRoutes(versionId, routes)`: replaces the entry of `versionId`. */
    method SetIgnoredRoutesFor(versionId: string, routes: set<Route>)
      modifies this
      ensures JavaMaps.Overwrites(old(ignored), map[versionId := routes], ignored)
      ensures Snapshot() == old(Snapshot()).(ignored := ignored)
    {
      ignored := JavaMaps.Put(ignored, versionId, routes);
    }

    /** `setIgnoredStringRoutes(routes)`. */
    method SetIgnoredStringRoutes(routes: map<string, set<string>>)
      modifies this
      ensures JavaMaps.Overwrites(old(stringIgnored), routes, stringIgnored)
      ensures Snapshot() == old(Snapshot()).(stringIgnored := stringIgnored)
    {
      stringIgnored := JavaMaps.PutAll(stringIgnored, routes);
    }

    /** `setIgnoredStringRoutes(versionId, routes)`. */
    method SetIgnoredStringRoutesFor(versionId: string, routes: set<string>)
      modifies this
      ensures JavaMaps.Overwrites(old(stringIgnored), map[versionId := routes], stringIgnored)
      ensures Snapshot() == old(Snapshot()).(stringIgnored := stringIgnored)
    {
      stringIgnored := JavaMaps.Put(stringIgnored, versionId, routes);
    }

    /** `setRelocations(relocations)`. */
    method SetRelocations(relocations: map<string, map<Route, Route>>)
      modifies this
      ensures JavaMaps.Overwrites(old(this.relocations), relocations, this.relocations)
      ensures Snapshot() == old(Snapshot()).(relocations := this.relocations)
    {
      this.relocations := JavaMaps.PutAll(this.relocations, relocations);
    }

    /** `setRelocations(versionId, relocations)`. */
    method SetRelocationsFor(versionId: string, relocations: map<Route, Route>)
      modifies this
      ensures JavaMaps.Overwrites(old(this.relocations), map[versionId := relocations], this.relocations)
      ensures Snapshot() == old(Snapshot()).(relocations := this.relocations)
    {
      this.relocations := JavaMaps.Put(this.relocations, versionId, relocations);
    }

    /** `setStringRelocations(relocations)`. */
    method SetStringRelocations(relocations: map<string, map<string, string>>)
      modifies this
      ensures JavaMaps.Overwrites(old(stringRelocations), relocations, stringRelocations)
      ensures Snapshot() == old(Snapshot()).(stringRelocations := stringRelocations)
    {
      stringRelocations := JavaMaps.PutAll(stringRelocations, relocations);
    }

    /** `setStringRelocations(versionId, relocations)`. */
    method SetStringRelocationsFor(versionId: string, relocations: map<string, string>)
      modifies this
      ensures JavaMaps.Overwrites(old(stringRelocations), map[versionId := relocations], stringRelocations)
      ensures Snapshot() == old(Snapshot()).(stringRelocations := stringRelocations)
    {
      stringRelocations := JavaMaps.Put(stringRelocations, versionId, relocations);
    }

    /** `setVersioning(versioning)`. `None` is the `null` that `builder(settings)`
        passes on for settings without versioning. */
    method SetVersioning(versioning: Option<Versioning>)
      modifies this
      ensures Snapshot() == old(Snapshot()).(versioning := versioning)
    {
      this.versioning := versioning;
    }

    /** `setVersioning(pattern, documentVersionId, defaultsVersionId)`: manual versioning. */
    method SetManualVersioning(pattern: Pattern, documentVersionId: Option<string>, defaultsVersionId: string)
      modifies this
      ensures versioning.Some? && versioning.value.Manual?
      ensures Snapshot() == old(Snapshot()).(versioning := Some(Manual(pattern, documentVersionId, defaultsVersionId)))
    {
      SetVersioning(Some(Manual(pattern, documentVersionId, defaultsVersionId)));
    }

    /** `setVersioning(pattern, route)` with a `Route`: automatic versioning. */
    method SetAutomaticVersioning(pattern: Pattern, route: Route)
      modifies this
      ensures versioning.Some? && versioning.value.Automatic?
      ensures Snapshot() == old(Snapshot()).(versioning := Some(Automatic(pattern, ByRoute(route))))
    {
      SetVersioning(Some(Automatic(pattern, ByRoute(route))));
    }

    /** `setVersioning(pattern, route)` with a string route: automatic versioning. */
    method SetAutomaticVersioningByString(pattern: Pattern, route: string)
      modifies this
      ensures versioning.Some? && versioning.value.Automatic?
      ensures Snapshot() == old(Snapshot()).(versioning := Some(Automatic(pattern, ByString(route))))
    {
      SetVersioning(Some(Automatic(pattern, ByString(route))));
    }
  }

  /** `DEFAULT = builder().build()`: the documented defaults. */
  method Default() returns (s: UpdaterSettings)
    ensures s.autoSave && s.enableDowngrading && !s.keepAll
    ensures s.mergeRules[Mappings] && !s.mergeRules[MappingAtSection] && !s.mergeRules[SectionAtMapping]
    ensures s.ignored == map[] && s.stringIgnored == map[]
    ensures s.relocations == map[] && s.stringRelocations == map[]
    ensures s.versioning == None
  {
    var b := new Builder();
    s := b.Build();
  }

  /** `builder(settings)`: a new builder that every setter has been given the
      corresponding field of `settings`, in the source's order. */
  method FromSettings(settings: UpdaterSettings) returns (b: Builder)
    ensures fresh(b)
    ensures b.Snapshot() == settings
  {
    b := new Builder();
    b.SetAutoSave(settings.autoSave);
    b.SetEnableDowngrading(settings.enableDowngrading);
    b.SetKeepAll(settings.keepAll);
    b.SetMergeRules(settings.mergeRules);
    b.SetIgnoredRoutes(settings.ignored);
    b.SetIgnoredStringRoutes(settings.stringIgnored);
    b.SetRelocations(settings.relocations);
    b.SetStringRelocations(settings.stringRelocations);
    b.SetVersioning(settings.versioning);
    assert b.mergeRules == settings.mergeRules by {
      assert DefaultMergeRules.Keys <= settings.mergeRules.Keys;
    }
  }

  /** `builder(settings).build()` reproduces `settings` field for field. */
  method CopyRoundTrip(settings: UpdaterSettings) returns (copy: UpdaterSettings)
    ensures copy == settings
  {
    var b := FromSettings(settings);
    copy := b.Build();
  }

  /** In any builder state, the last of two `setMergeRule` calls for one rule
      decides its value; the other rules and every other field keep what they had. */
  method MergeRuleLastCallWins(b: Builder, rule: MergeRule, first: bool, second: bool)
    modifies b
    ensures b.mergeRules[rule] == second
    ensures forall other :: other != rule ==>
      other in b.mergeRules && other in old(b.mergeRules) && b.mergeRules[other] == old(b.mergeRules)[other]
    ensures b.Snapshot() == old(b.Snapshot()).(mergeRules := b.mergeRules)
  {
    b.SetMergeRule(rule, first);
    b.SetMergeRule(rule, second);
  }

  /** A per-version setter replaces, never unions: in any builder state, after
      setting `first` and then `second` for one version id, only `second` is
      stored for it and the other ids keep their entries. */
  method IgnoredRoutesReplaced(b: Builder, versionId: string, first: set<Route>, second: set<Route>)
    modifies b
    ensures b.ignored == old(b.ignored)[versionId := second]
    ensures b.Snapshot() == old(b.Snapshot()).(ignored := b.ignored)
  {
    b.SetIgnoredRoutesFor(versionId, first);
    b.SetIgnoredRoutesFor(versionId, second);
  }

  /** The builder and the lookup agree: after `setIgnoredRoutes(versionId, routes)`
      and `build()`, the routes ignored at `versionId` are exactly `routes`
      together with the parsed string routes the builder already held. */
  method IgnoredAfterSet(b: Builder, versionId: string, routes: set<Route>, separator: char, create: RouteFactory)
    returns (ignored: set<Route>)
    modifies b
    ensures routes <= ignored
    ensures ignored == routes + ParsedIgnored(old(b.Snapshot()), versionId, separator, create)
  {
    b.SetIgnoredRoutesFor(versionId, routes);
    var s := b.Build();
    ignored := GetIgnored(s, versionId, separator, create);
  }
}
