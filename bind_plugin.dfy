/** The plugin: its configuration defaults, the choice of data source, the
    shared configuration object every bound store reads, and the subscriber
    that re-dispatches the actions watching a mutation. */
module BindPlugin {
  import opened Dicts
  import opened Js
  import opened DataSources
  import opened Bindings

  /** `initial_state`: what the data source is built from; a truthy `mock`
      selects the mock source. */
  datatype InitialState = InitialState(mock: Value, source: SourceOptions)

  /** The constructor's options; `None` is an option left undefined. */
  datatype PluginOptions = PluginOptions(
    initialState: Option<InitialState>,
    endpoints: Option<Dict<Endpoint>>,
    camelCase: Option<bool>,
    namespace: Option<string>,
    loadingPrefix: Option<string>,
    updatePrefix: Option<string>,
    donePrefix: Option<string>,
    loadPrefix: Option<string>,
    triggerPrefix: Option<string>,
    strict: Option<bool>,
    logBlockedBinds: Option<bool>)

  /** The configuration every bound store and the bind module read. */
  datatype PluginConfig = PluginConfig(
    dataSource: DataSource,
    endpoints: Dict<Endpoint>,
    camelCase: bool,
    namespace: string,
    loadingPrefix: string,
    updatePrefix: string,
    donePrefix: string,
    loadPrefix: string,
    triggerPrefix: string,
    strict: bool,
    logBlockedBinds: bool)

  /** The default `initial_state`: an empty base URL, and `headers` the plain
      string `"application/json"` (not a header object). */
  const DefaultInitialState: InitialState :=
    InitialState(Undefined, SourceOptions(Some(""), Some(Str("application/json")), None))

  /** The data source built from the initial state. */
  function ChooseSource(init: InitialState): (s: DataSource)
    ensures s.Mock? <==> Truthy(init.mock)
    ensures s.Mock? ==> s == NewMock(init.source)
    ensures s.Rest? ==> s == NewRest(init.source)
  {
    if Truthy(init.mock) then NewMock(init.source) else NewRest(init.source)
  }

  /** The configuration the constructor writes: every option that is given
      is kept, every undefined one takes its own default, independently of
      the others. */
  function Configured(o: PluginOptions): (c: PluginConfig)
    ensures c.dataSource == ChooseSource(GetOrElse(o.initialState, DefaultInitialState))
    ensures c.endpoints == if o.endpoints.Some? then o.endpoints.value else []
    ensures c.camelCase == if o.camelCase.Some? then o.camelCase.value else false
    ensures c.namespace == if o.namespace.Some? then o.namespace.value else "bind"
    ensures c.loadingPrefix == if o.loadingPrefix.Some? then o.loadingPrefix.value else "loading_"
    ensures c.updatePrefix == if o.updatePrefix.Some? then o.updatePrefix.value else "update_"
    ensures c.donePrefix == if o.donePrefix.Some? then o.donePrefix.value else "done_"
    ensures c.loadPrefix == if o.loadPrefix.Some? then o.loadPrefix.value else "load_"
    ensures c.triggerPrefix == if o.triggerPrefix.Some? then o.triggerPrefix.value else "trigger_"
    ensures c.strict == if o.strict.Some? then o.strict.value else false
    ensures c.logBlockedBinds == if o.logBlockedBinds.Some? then o.logBlockedBinds.value else false
  {
    PluginConfig(
      ChooseSource(GetOrElse(o.initialState, DefaultInitialState)),
      GetOrElse(o.endpoints, []),
      GetOrElse(o.camelCase, false),
      GetOrElse(o.namespace, "bind"),
      GetOrElse(o.loadingPrefix, "loading_"),
      GetOrElse(o.updatePrefix, "update_"),
      GetOrElse(o.donePrefix, "done_"),
      GetOrElse(o.loadPrefix, "load_"),
      GetOrElse(o.triggerPrefix, "trigger_"),
      GetOrElse(o.strict, false),
      GetOrElse(o.logBlockedBinds, false))
  }

  const NoOptions: PluginOptions :=
    PluginOptions(None, None, None, None, None, None, None, None, None, None, None)

  /** With no option given: namespace `bind`, the five underscore prefixes,
      not strict, no logging, no endpoints, and a REST source with base URL
      `""` and headers `"application/json"`. */
  lemma DefaultConfiguration()
    ensures Configured(NoOptions) ==
            PluginConfig(Rest(SourceState("", Str("application/json"))), [], false, "bind",
                         "loading_", "update_", "done_", "load_", "trigger_", false, false)
  {
  }

  /** The mock source is chosen exactly when the given initial state has a
      truthy `mock`; the default initial state gives a REST source. */
  lemma SourceChoice(o: PluginOptions)
    ensures Configured(o).dataSource.Mock? <==> o.initialState.Some? && Truthy(o.initialState.value.mock)
  {
  }

  /** The static configuration object. It starts empty (no `endpoints`), and
      the plugin's constructor fills it. */
  class Plugin {
    var config: Option<PluginConfig>

    constructor ()
      ensures config == None
    {
      config := None;
    }

    /** `new BindPlugin(options)`: writes the configuration. */
    method Configure(o: PluginOptions)
      modifies this
      ensures config == Some(Configured(o))
    {
      config := Some(Configured(o));
    }
  }

  /** The subscriber: on a mutation, every action listed for its type in the
      bind module's `watch_params` is dispatched, in list order; a type with
      no entry dispatches nothing. */
  method OnMutation(watchParams: Dict<seq<string>>, mutationType: string) returns (dispatched: seq<Event>)
    ensures Get(watchParams, mutationType).None? ==> dispatched == []
    ensures Get(watchParams, mutationType).Some? ==>
              var actions := Get(watchParams, mutationType).value;
              |dispatched| == |actions| &&
              forall i :: 0 <= i < |actions| ==> dispatched[i] == Dispatch(actions[i], NoPayload, false)
  {
    dispatched := [];
    var listed := Get(watchParams, mutationType);
    if listed.Some? {
      var actions := listed.value;
      var i := 0;
      while i < |actions|
        invariant 0 <= i <= |actions|
        invariant |dispatched| == i
        invariant forall j :: 0 <= j < i ==> dispatched[j] == Dispatch(actions[j], NoPayload, false)
      {
        dispatched := dispatched + [Dispatch(actions[i], NoPayload, false)];
        i := i + 1;
      }
    }
  }
}
