/** The package's default export: `Modules`, which turns a table of store
    configurations into Vuex modules, compiling each one that has both a
    namespace and bindings and warning about each one that has only one. */
module Exports {
  import opened Dicts
  import opened Js
  import opened BindPlugin
  import opened BoundStore

  /** What `Modules` puts under a key: a compiled store, or the configuration
      as it was given. */
  datatype ModuleEntry = Store(store: Compiled) | AsGiven(config: StoreConfig)

  /** `configs[ns].namespace` as a condition reads it: the empty namespace
      counts as missing. */
  predicate HasNamespace(cfg: StoreConfig)
  {
    cfg.namespace.Some? && cfg.namespace.value != ""
  }

  /** `configs[ns].bindings` as a condition reads it (an object is truthy). */
  predicate HasBindings(cfg: StoreConfig)
  {
    cfg.bindings.Some?
  }

  /** The warning for a configuration with exactly one of the two. */
  function MissingWarning(key: string, cfg: StoreConfig): (w: string)
    ensures HasBindings(cfg) ==> w == "Module " + key + " has " + "bindings" + " but is missing " + "namespace"
    ensures !HasBindings(cfg) ==> w == "Module " + key + " has " + "namespace" + " but is missing " + "bindings"
  {
    var m := ["bindings", "namespace"];
    var n := if HasBindings(cfg) then 0 else 1;
    "Module " + key + " has " + m[n] + " but is missing " + m[(n + 1) % 2]
  }

  /** One configuration after the `map` callback: its entry and the warning
      it printed, or the exception the store constructor threw. */
  datatype Classified =
    | Entry(entry: (string, ModuleEntry), warning: Option<string>)
    | Threw(error: StoreError)

  function Classify(key: string, cfg: StoreConfig, plugin: Option<PluginConfig>,
                    getDefault: Option<Ctor> -> Value): (c: Classified)
    ensures c.Threw? ==> HasNamespace(cfg) && HasBindings(cfg)
    ensures HasNamespace(cfg) && HasBindings(cfg) ==>
              match CompileStore(cfg, plugin, getDefault)
              case Rejected(e) => c == Threw(e)
              case Built(s) => c == Entry((cfg.namespace.value, Store(s)), None)
    ensures HasNamespace(cfg) != HasBindings(cfg) ==>
              c == Entry((key, AsGiven(cfg)), Some(MissingWarning(key, cfg)))
    ensures !HasNamespace(cfg) && !HasBindings(cfg) ==> c == Entry((key, AsGiven(cfg)), None)
  {
    if HasNamespace(cfg) || HasBindings(cfg) then
      if HasNamespace(cfg) && HasBindings(cfg) then
        match CompileStore(cfg, plugin, getDefault)
        case Rejected(e) => Threw(e)
        case Built(s) => Entry((cfg.namespace.value, Store(s)), None)
      else Entry((key, AsGiven(cfg)), Some(MissingWarning(key, cfg)))
    else Entry((key, AsGiven(cfg)), None)
  }

  /** The `map` over the keys, in order: the entries, the warnings printed,
      and the exception that stopped it, if one did. */
  datatype Mapped = Mapped(entries: seq<(string, ModuleEntry)>, warnings: seq<string>, error: Option<StoreError>)

  function MapConfigs(configs: Dict<StoreConfig>, plugin: Option<PluginConfig>,
                      getDefault: Option<Ctor> -> Value): Mapped
  {
    if configs == [] then Mapped([], [], None)
    else
      match Classify(configs[0].0, configs[0].1, plugin, getDefault)
      case Threw(e) => Mapped([], [], Some(e))
      case Entry(entry, warning) =>
        var rest := MapConfigs(configs[1..], plugin, getDefault);
        var printed := match warning case Some(w) => [w] case None => [];
        Mapped([entry] + rest.entries, printed + rest.warnings, rest.error)
  }

  /** What `Modules(configs)` gives: the modules object and the warnings
      printed, or the exception with the warnings printed before it. */
  datatype ModulesOutcome =
    | Modules(modules: Dict<ModuleEntry>, warnings: seq<string>)
    | ModulesThrew(error: StoreError, warnings: seq<string>)

  function ModulesOf(configs: Dict<StoreConfig>, plugin: Option<PluginConfig>,
                     getDefault: Option<Ctor> -> Value): ModulesOutcome
  {
    var m := MapConfigs(configs, plugin, getDefault);
    match m.error
    case Some(e) => ModulesThrew(e, m.warnings)
    case None => Modules(FromEntries(m.entries), m.warnings)
  }

  /** A configuration the constructor accepts, or one it is never given. */
  predicate Compiles(cfg: StoreConfig, plugin: Option<PluginConfig>, getDefault: Option<Ctor> -> Value)
  {
    !(HasNamespace(cfg) && HasBindings(cfg)) || CompileStore(cfg, plugin, getDefault).Built?
  }

  /** The warnings, one per configuration with exactly one of namespace and
      bindings, in key order. */
  function HalfWarnings(configs: Dict<StoreConfig>): seq<string>
  {
    if configs == [] then []
    else
      (if HasNamespace(configs[0].1) != HasBindings(configs[0].1)
       then [MissingWarning(configs[0].0, configs[0].1)] else []) + HalfWarnings(configs[1..])
  }

  /** The entry each configuration is meant to give: a compiled store under
      its namespace, which (the namespace being non-empty) is itself an object
      holding the configuration under that same namespace; anything else as
      given under its own key. */
  function ExpectedEntry(key: string, cfg: StoreConfig, plugin: Option<PluginConfig>,
                         getDefault: Option<Ctor> -> Value): (string, ModuleEntry)
    requires Compiles(cfg, plugin, getDefault)
  {
    if HasNamespace(cfg) && HasBindings(cfg) then
      var ns := cfg.namespace.value;
      (ns, Store(Keyed(ns, CompileStore(cfg, plugin, getDefault).store.config)))
    else (key, AsGiven(cfg))
  }

  /** A configuration the constructor accepts, or is never given, yields its
      expected entry and a warning exactly when it is half-declared. */
  lemma ClassifyCompiles(key: string, cfg: StoreConfig, plugin: Option<PluginConfig>,
                         getDefault: Option<Ctor> -> Value)
    requires Compiles(cfg, plugin, getDefault)
    ensures Classify(key, cfg, plugin, getDefault) ==
            Entry(ExpectedEntry(key, cfg, plugin, getDefault),
                  if HasNamespace(cfg) != HasBindings(cfg) then Some(MissingWarning(key, cfg)) else None)
  {
    if HasNamespace(cfg) && HasBindings(cfg) {
      var s := CompileStore(cfg, plugin, getDefault).store;
      assert s == Keyed(cfg.namespace.value, s.config);
    }
  }

  /** When every configuration compiles, `Modules` builds its object from the
      expected entry of each configuration, in order, and prints exactly the
      warnings for the half-declared ones. */
  lemma {:induction false} ModulesWhenAllCompile(configs: Dict<StoreConfig>, plugin: Option<PluginConfig>,
                                                 getDefault: Option<Ctor> -> Value)
    requires forall i :: 0 <= i < |configs| ==> Compiles(configs[i].1, plugin, getDefault)
    ensures var m := MapConfigs(configs, plugin, getDefault);
            m.error.None? && m.warnings == HalfWarnings(configs) && |m.entries| == |configs| &&
            forall i :: 0 <= i < |configs| ==>
              m.entries[i] == ExpectedEntry(configs[i].0, configs[i].1, plugin, getDefault)
    ensures ModulesOf(configs, plugin, getDefault).Modules?
    decreases |configs|
  {
    if configs != [] {
      var key, cfg := configs[0].0, configs[0].1;
      assert forall i :: 1 <= i < |configs| ==> configs[1..][i - 1] == configs[i];
      ModulesWhenAllCompile(configs[1..], plugin, getDefault);
      assert Compiles(cfg, plugin, getDefault);
      ClassifyCompiles(key, cfg, plugin, getDefault);
      var rest := MapConfigs(configs[1..], plugin, getDefault);
      var m := MapConfigs(configs, plugin, getDefault);
      assert m.entries == [ExpectedEntry(key, cfg, plugin, getDefault)] + rest.entries;
    }
  }

  /** The first configuration the constructor rejects makes `Modules` throw
      that error, after the warnings of the configurations before it. */
  lemma {:induction false} ModulesThrowAt(configs: Dict<StoreConfig>, plugin: Option<PluginConfig>,
                                          getDefault: Option<Ctor> -> Value, i: nat)
    requires i < |configs|
    requires forall j :: 0 <= j < i ==> Compiles(configs[j].1, plugin, getDefault)
    requires !Compiles(configs[i].1, plugin, getDefault)
    ensures ModulesOf(configs, plugin, getDefault) ==
            ModulesThrew(CompileStore(configs[i].1, plugin, getDefault).error, HalfWarnings(configs[..i]))
    decreases i
  {
    var m := MapConfigs(configs, plugin, getDefault);
    if i == 0 {
      assert configs[..0] == [];
    } else {
      assert forall j :: 1 <= j < |configs| ==> configs[1..][j - 1] == configs[j];
      ModulesThrowAt(configs[1..], plugin, getDefault, i - 1);
      assert configs[1..][..i - 1] == configs[..i][1..];
      assert Compiles(configs[0].1, plugin, getDefault);
    }
  }

  /** Under distinct resulting keys, each configuration that has neither a
      namespace nor bindings sits unchanged under its own key. */
  lemma PlainConfigPassesThrough(configs: Dict<StoreConfig>, plugin: Option<PluginConfig>,
                                 getDefault: Option<Ctor> -> Value, i: nat)
    requires i < |configs|
    requires forall j :: 0 <= j < |configs| ==> Compiles(configs[j].1, plugin, getDefault)
    requires !HasNamespace(configs[i].1) && !HasBindings(configs[i].1)
    requires UniqueKeys(MapConfigs(configs, plugin, getDefault).entries)
    ensures ModulesOf(configs, plugin, getDefault).Modules?
    ensures Get(ModulesOf(configs, plugin, getDefault).modules, configs[i].0) == Some(AsGiven(configs[i].1))
  {
    ModulesWhenAllCompile(configs, plugin, getDefault);
    var es := MapConfigs(configs, plugin, getDefault).entries;
    FromEntriesUnique(es);
    GetUnique(es, i);
  }

  /** A compiled store lands under its namespace and is itself keyed by that
      namespace: `Modules({m: {namespace: "ns", ...}})` holds
      `{ns: {ns: config}}`. */
  lemma CompiledStoreNestsTwice(key: string, cfg: StoreConfig, plugin: PluginConfig,
                                getDefault: Option<Ctor> -> Value)
    requires HasNamespace(cfg) && HasBindings(cfg)
    requires CompileStore(cfg, Some(plugin), getDefault).Built?
    ensures var c := Classify(key, cfg, Some(plugin), getDefault);
            c.Entry? && c.entry.0 == cfg.namespace.value && c.entry.1.Store? &&
            c.entry.1.store.Keyed? && c.entry.1.store.namespace == cfg.namespace.value &&
            c.warning.None?
  {
  }

  /** An empty namespace with bindings is warned about as a missing namespace
      and the configuration is left uncompiled. */
  lemma EmptyNamespaceIsMissing(key: string, cfg: StoreConfig, plugin: Option<PluginConfig>,
                                getDefault: Option<Ctor> -> Value)
    requires cfg.namespace == Some("") && cfg.bindings.Some?
    ensures Classify(key, cfg, plugin, getDefault) ==
            Entry((key, AsGiven(cfg)), Some("Module " + key + " has " + "bindings" + " but is missing " + "namespace"))
  {
  }
}
