/** The binding compiler: a store configuration with `namespace` and
    `bindings` becomes a module whose state, mutations and actions include
    the generated ones, walked over the bindings in declaration order. */
module BoundStore {
  import opened Dicts
  import opened Js
  import opened Utils
  import opened DataSources
  import opened Bindings
  import opened BindPlugin

  /** A mutation as the table holds it: the generated setters, or one the
      store configuration brought along. */
  datatype MutationDef =
    | SetField(field: string)                 // `(state, payload) => state[field] = payload`
    | SetFlag(field: string, flag: bool)      // `(state) => state[field] = flag`
    | UserMutation(id: string)

  /** An action as the table holds it. */
  datatype ActionDef =
    | LoadAction(target: string, payload: BindPayload)   // dispatches `target` at root
    | StartBindAction
    | UserAction(id: string)

  /** What the compiler has generated so far. */
  datatype Tables = Tables(
    state: Dict<Value>,
    mutations: Dict<MutationDef>,
    actions: Dict<ActionDef>,
    loads: seq<string>,
    watchDefs: Dict<Option<Dict<Ctor>>>)

  const Empty: Tables := Tables([], [], [], [], [])

  /** What every step reads: the store's namespace, the plugin configuration,
      and `get_default`, the zero value a declared type starts at (its table
      is not part of this model). */
  datatype Context = Context(namespace: string, plugin: PluginConfig, getDefault: Option<Ctor> -> Value)

  /** What a mutation does to a state; `None` for one the compiler did not
      generate. */
  function ApplyMutation(m: MutationDef, state: Dict<Value>, payload: Value): (r: Option<Dict<Value>>)
    ensures m.SetField? ==> r.Some? && Get(r.value, m.field) == Some(payload) &&
                            forall k :: k != m.field ==> Get(r.value, k) == Get(state, k)
    ensures m.SetFlag? ==> r.Some? && Get(r.value, m.field) == Some(Bool(m.flag)) &&
                           forall k :: k != m.field ==> Get(r.value, k) == Get(state, k)
  {
    match m
    case SetField(f) =>
      assert forall k :: Get(Set(state, f, payload), k) == if k == f then Some(payload) else Get(state, k) by {
        forall k { GetSet(state, f, payload, k); }
      }
      Some(Set(state, f, payload))
    case SetFlag(f, flag) =>
      assert forall k :: Get(Set(state, f, Bool(flag)), k) == if k == f then Some(Bool(flag)) else Get(state, k) by {
        forall k { GetSet(state, f, Bool(flag), k); }
      }
      Some(Set(state, f, Bool(flag)))
    case UserMutation(_) => None
  }

  /** `create_variable(name, type)`: the field at its default and its update
      mutation `update_prefix + name`. */
  function WithVariable(g: Tables, ctx: Context, name: string, t: Option<Ctor>): Tables
  {
    g.(state := Set(g.state, name, ctx.getDefault(t)),
       mutations := Set(g.mutations, ctx.plugin.updatePrefix + name, SetField(name)))
  }

  /** One `create_variable` per entry of a parameter table, in order. */
  function WithParamVariables(g: Tables, ctx: Context, params: Dict<Ctor>): Tables
    decreases |params|
  {
    if params == [] then g
    else
      var last := params[|params| - 1];
      WithVariable(WithParamVariables(g, ctx, params[..|params| - 1]), ctx, last.0, Some(last.1))
  }

  /** `create_loading_variable(name)`: the flag `loading_prefix + name`, false
      at first, set by the mutation of the same name and cleared by
      `done_prefix + loading_prefix + name`. */
  function WithLoadingVariable(g: Tables, ctx: Context, name: string): Tables
  {
    var loadingName := ctx.plugin.loadingPrefix + name;
    var doneName := ctx.plugin.donePrefix + loadingName;
    g.(state := Set(g.state, loadingName, Bool(false)),
       mutations := Set(Set(g.mutations, loadingName, SetFlag(loadingName, true)), doneName, SetFlag(loadingName, false)))
  }

  /** The name of a binding's action: `trigger_prefix + name` for a trigger
      binding, `load_prefix + name` for any other. */
  function ActionName(ctx: Context, name: string, b: Binding): string
  {
    if b.mode == Trigger then ctx.plugin.triggerPrefix + name else ctx.plugin.loadPrefix + name
  }

  /** `create_load_action`: an action dispatching the plugin's `bind` at root
      with the binding, the endpoint and the store namespace (and no
      `output`); a non-trigger action is also listed as a load action. */
  function WithLoadAction(g: Tables, ctx: Context, name: string, b: Binding, e: Endpoint): Tables
  {
    var actionName := ActionName(ctx, name, b);
    g.(actions := Set(g.actions, actionName,
                      LoadAction(ctx.plugin.namespace + "/bind", BindPayload(b, e, ctx.namespace, None))),
       loads := if b.mode == Trigger then g.loads else g.loads + [actionName])
  }

  /** The parameter table a binding uses: renamed through its `param_map`
      when it has one (which needs the endpoint's table), the endpoint's own
      otherwise. */
  function ParamDefs(b: Binding, e: Endpoint): (r: Result<Option<Dict<Ctor>>>)
    ensures r.Err? <==> b.paramMap.Some? && e.params.None?
    ensures b.paramMap.None? ==> r == Ok(e.params)
  {
    match b.paramMap
    case None => Ok(e.params)
    case Some(pm) =>
      match e.params
      case None => Err(NotAnObject)
      case Some(t) => Ok(Some(MapEndpointTypes(Some(pm), t)))
  }

  predicate Watched(b: Binding)
  {
    b.mode == Watch || b.mode == Change
  }

  function UnknownEndpoint(b: Binding): Fault
  {
    Thrown("Tried to bind to unknown endpoint : " + Text(b.endpoint))
  }

  /** What one binding adds once its endpoint and parameter table are known:
      its watch definition, its output field unless redirected, its
      parameter fields, its loading flag and its action, in that order. */
  function Build(g: Tables, ctx: Context, out: string, b: Binding, e: Endpoint, params: Option<Dict<Ctor>>): Tables
  {
    var g1 := if Watched(b) then g.(watchDefs := Set(g.watchDefs, out, params)) else g;
    var g2 := if !b.redirect then WithVariable(g1, ctx, out, e.resultType) else g1;
    var g3 := if params.Some? && b.createParams then WithParamVariables(g2, ctx, params.value) else g2;
    var g4 := if b.loading then WithLoadingVariable(g3, ctx, out) else g3;
    WithLoadAction(g4, ctx, out, b, e)
  }

  /** One pass of the loop in `generate_modifications` for the binding `b0`
      declared under `out`; the binding records `out` as its `output`. */
  function Step(g: Tables, ctx: Context, out: string, b0: Binding): Result<Tables>
  {
    var b := b0.(output := Some(out));
    match Get(ctx.plugin.endpoints, Text(b.endpoint))
    case None => Err(UnknownEndpoint(b))
    case Some(e) =>
      match ParamDefs(b, e)
      case Err(f) => Err(f)
      case Ok(params) => Ok(Build(g, ctx, out, b, e, params))
  }

  /** The loop of `generate_modifications` over the first bindings. */
  function Generate(ctx: Context, bindings: Dict<Binding>): Result<Tables>
    decreases |bindings|
  {
    if bindings == [] then Ok(Empty)
    else
      var last := bindings[|bindings| - 1];
      match Generate(ctx, bindings[..|bindings| - 1])
      case Err(f) => Err(f)
      case Ok(g) => Step(g, ctx, last.0, last.1)
  }

  /** `generate_modifications`: every binding, then the `start_bind` action. */
  function Compile(ctx: Context, bindings: Dict<Binding>): Result<Tables>
  {
    match Generate(ctx, bindings)
    case Err(f) => Err(f)
    case Ok(g) => Ok(g.(actions := Set(g.actions, "start_bind", StartBindAction)))
  }

  /** The mutation names a watch registration lists: the store namespace,
      the update prefix and the parameter field, with no separator. */
  function WatchedMutations(ctx: Context, defs: Dict<Ctor>): (ms: seq<string>)
    ensures |ms| == |defs|
    ensures forall i :: 0 <= i < |defs| ==> ms[i] == ctx.namespace + ctx.plugin.updatePrefix + defs[i].0
  {
    seq(|defs|, i requires 0 <= i < |defs| => ctx.namespace + ctx.plugin.updatePrefix + defs[i].0)
  }

  function Registration(ctx: Context, out: string, defs: Dict<Ctor>): Event
  {
    Commit(ctx.plugin.namespace + "/watch_params",
           WatchRegistration(ctx.namespace + ctx.plugin.loadPrefix + out, WatchedMutations(ctx, defs)), true)
  }

  /** `add_watch_params`: one root commit per watched output, in order; an
      output whose binding had no parameter table throws. */
  function Registrations(ctx: Context, watchDefs: Dict<Option<Dict<Ctor>>>): Run
    decreases |watchDefs|
  {
    if watchDefs == [] then Run([], None)
    else
      var r := Registrations(ctx, watchDefs[..|watchDefs| - 1]);
      var last := watchDefs[|watchDefs| - 1];
      if r.failure.Some? then r
      else match last.1
        case None => Run(r.events, Some(NotAnObject))
        case Some(defs) => Run(r.events + [Registration(ctx, last.0, defs)], None)
  }

  function LoadDispatches(loads: seq<string>): (es: seq<Event>)
    ensures |es| == |loads|
    ensures forall i :: 0 <= i < |loads| ==> es[i] == Dispatch(loads[i], NoPayload, false)
  {
    seq(|loads|, i requires 0 <= i < |loads| => Dispatch(loads[i], NoPayload, false))
  }

  /** The `start_bind` action: the watch registrations, then every load
      action dispatched in order. */
  function StartBindRun(g: Tables, ctx: Context): Run
  {
    var r := Registrations(ctx, g.watchDefs);
    if r.failure.Some? then r else Run(r.events + LoadDispatches(g.loads), None)
  }

  /** A module configuration; `None` is a field that is absent. */
  datatype StoreConfig = StoreConfig(
    namespace: Option<string>,
    bindings: Option<Dict<Binding>>,
    state: Option<Dict<Value>>,
    mutations: Option<Dict<MutationDef>>,
    actions: Option<Dict<ActionDef>>,
    namespaced: Option<bool>)

  /** What the constructor gives back: the configuration itself for the root
      namespace, else an object with the configuration under the namespace. */
  datatype Compiled = Root(config: StoreConfig) | Keyed(namespace: string, config: StoreConfig)

  datatype StoreError =
    | MissingNamespace        // "BoundStore initialized without namespace: ..."
    | PluginNotConfigured     // "BoundStore created before plugin was configured: ..."
    | Failed(fault: Fault)

  datatype StoreOutcome = Built(store: Compiled) | Rejected(error: StoreError)

  /** The configuration after a successful compile: `bindings` and `namespace`
      deleted, the generated tables assigned over the given ones, and
      `namespaced` set. */
  function Finished(cfg: StoreConfig, g: Tables): StoreConfig
    requires cfg.state.Some? && cfg.mutations.Some? && cfg.actions.Some?
  {
    cfg.(namespace := None, bindings := None,
         state := Some(SetAll(cfg.state.value, g.state)),
         mutations := Some(SetAll(cfg.mutations.value, g.mutations)),
         actions := Some(SetAll(cfg.actions.value, g.actions)),
         namespaced := Some(true))
  }

  /** `new BoundStore(store_config)` against the plugin configuration, which
      is `None` until the plugin has been constructed. */
  function CompileStore(cfg: StoreConfig, plugin: Option<PluginConfig>, getDefault: Option<Ctor> -> Value): StoreOutcome
  {
    if cfg.namespace.None? then Rejected(MissingNamespace)
    else if plugin.None? then Rejected(PluginNotConfigured)
    else if cfg.bindings.None? then Rejected(Failed(NotAnObject))
    else
      var ns := cfg.namespace.value;
      match Compile(Context(ns, plugin.value, getDefault), cfg.bindings.value)
      case Err(f) => Rejected(Failed(f))
      case Ok(g) =>
        if cfg.state.None? || cfg.mutations.None? || cfg.actions.None? then Rejected(Failed(NotAnObject))
        else if ns == "" then Built(Root(Finished(cfg, g)))
        else Built(Keyed(ns, Finished(cfg, g)))
  }

  /** The compiler's working object. */
  class BoundStore {
    const namespace: string
    const plugin: PluginConfig
    const getDefault: Option<Ctor> -> Value
    const bindings: Dict<Binding>
    var generatedState: Dict<Value>
    var generatedMutations: Dict<MutationDef>
    var generatedActions: Dict<ActionDef>
    var allLoadActions: seq<string>
    var watchParamDefs: Dict<Option<Dict<Ctor>>>

    function Ctx(): Context
    {
      Context(namespace, plugin, getDefault)
    }

    function View(): Tables
      reads this
    {
      Tables(generatedState, generatedMutations, generatedActions, allLoadActions, watchParamDefs)
    }

    constructor (namespace: string, plugin: PluginConfig, getDefault: Option<Ctor> -> Value, bindings: Dict<Binding>)
      ensures this.namespace == namespace && this.plugin == plugin && this.getDefault == getDefault
      ensures this.bindings == bindings
      ensures View() == Empty
    {
      this.namespace := namespace;
      this.plugin := plugin;
      this.getDefault := getDefault;
      this.bindings := bindings;
      generatedState, generatedMutations, generatedActions := [], [], [];
      allLoadActions, watchParamDefs := [], [];
    }

    method CreateVariable(name: string, t: Option<Ctor>)
      modifies this
      ensures View() == WithVariable(old(View()), Ctx(), name, t)
    {
      generatedState := Set(generatedState, name, getDefault(t));
      generatedMutations := Set(generatedMutations, plugin.updatePrefix + name, SetField(name));
    }

    /** The inner loop of `generate_modifications` over a parameter table. */
    method CreateParamVariables(params: Dict<Ctor>)
      modifies this
      ensures View() == WithParamVariables(old(View()), Ctx(), params)
    {
      ghost var g0 := View();
      var i := 0;
      while i < |params|
        invariant 0 <= i <= |params|
        invariant View() == WithParamVariables(g0, Ctx(), params[..i])
      {
        assert params[..i + 1][..i] == params[..i];
        CreateVariable(params[i].0, Some(params[i].1));
        i := i + 1;
      }
      assert params[..i] == params;
    }

    method CreateLoadingVariable(name: string)
      modifies this
      ensures View() == WithLoadingVariable(old(View()), Ctx(), name)
    {
      var loadingName := plugin.loadingPrefix + name;
      var doneName := plugin.donePrefix + loadingName;
      generatedState := Set(generatedState, loadingName, Bool(false));
      generatedMutations := Set(generatedMutations, loadingName, SetFlag(loadingName, true));
      generatedMutations := Set(generatedMutations, doneName, SetFlag(loadingName, false));
    }

    method CreateLoadAction(name: string, b: Binding, e: Endpoint)
      modifies this
      ensures View() == WithLoadAction(old(View()), Ctx(), name, b, e)
    {
      var actionName := plugin.triggerPrefix + name;
      if b.mode != Trigger {
        actionName := plugin.loadPrefix + name;
        allLoadActions := allLoadActions + [actionName];
      }
      generatedActions := Set(generatedActions, actionName,
                              LoadAction(plugin.namespace + "/bind", BindPayload(b, e, namespace, None)));
    }

    method CreateStartBindAction()
      modifies this
      ensures View() == old(View()).(actions := Set(old(View()).actions, "start_bind", StartBindAction))
    {
      generatedActions := Set(generatedActions, "start_bind", StartBindAction);
    }

    /** The body of the loop in `generate_modifications`. */
    method BindOne(out: string, b0: Binding) returns (failure: Option<Fault>)
      modifies this
      ensures failure.None? ==> Step(old(View()), Ctx(), out, b0) == Ok(View())
      ensures failure.Some? ==> Step(old(View()), Ctx(), out, b0) == Err(failure.value) && View() == old(View())
    {
      var b := b0.(output := Some(out));
      var endpoint := Get(plugin.endpoints, Text(b.endpoint));
      if endpoint.None? {
        return Some(UnknownEndpoint(b));
      }
      var e := endpoint.value;
      var defs := ParamDefs(b, e);
      if defs.Err? {
        return Some(defs.fault);
      }
      var params := defs.value;
      if Watched(b) {
        watchParamDefs := Set(watchParamDefs, out, params);
      }
      if !b.redirect {
        CreateVariable(out, e.resultType);
      }
      if params.Some? && b.createParams {
        CreateParamVariables(params.value);
      }
      if b.loading {
        CreateLoadingVariable(out);
      }
      CreateLoadAction(out, b, e);
      failure := None;
    }

    /** `generate_modifications`, run on a fresh working object. */
    method GenerateModifications() returns (failure: Option<Fault>)
      requires View() == Empty
      modifies this
      ensures failure.None? ==> Compile(Ctx(), bindings) == Ok(View())
      ensures failure.Some? ==> Compile(Ctx(), bindings) == Err(failure.value)
    {
      var i := 0;
      while i < |bindings|
        invariant 0 <= i <= |bindings|
        invariant Generate(Ctx(), bindings[..i]) == Ok(View())
      {
        ghost var g := View();
        assert bindings[..i + 1][..i] == bindings[..i];
        assert bindings[..i + 1][i] == bindings[i];
        var f := BindOne(bindings[i].0, bindings[i].1);
        assert Generate(Ctx(), bindings[..i + 1]) == Step(g, Ctx(), bindings[i].0, bindings[i].1);
        if f.Some? {
          GenerateErrPersists(Ctx(), bindings, i + 1);
          return f;
        }
        i := i + 1;
      }
      assert bindings[..i] == bindings;
      CreateStartBindAction();
      failure := None;
    }

    /** `add_watch_params`, with the commits it makes as the result. */
    method AddWatchParams() returns (r: Run)
      ensures r == Registrations(Ctx(), watchParamDefs)
    {
      r := Run([], None);
      var i := 0;
      while i < |watchParamDefs|
        invariant 0 <= i <= |watchParamDefs|
        invariant r == Registrations(Ctx(), watchParamDefs[..i]) && r.failure.None?
      {
        assert watchParamDefs[..i + 1][..i] == watchParamDefs[..i];
        assert watchParamDefs[..i + 1][i] == watchParamDefs[i];
        var defs := watchParamDefs[i].1;
        if defs.None? {
          RegistrationsErrPersists(Ctx(), watchParamDefs, i + 1);
          return Run(r.events, Some(NotAnObject));
        }
        r := Run(r.events + [Registration(Ctx(), watchParamDefs[i].0, defs.value)], None);
        i := i + 1;
      }
      assert watchParamDefs[..i] == watchParamDefs;
    }

    /** The `start_bind` action. */
    method StartBind() returns (r: Run)
      ensures r == StartBindRun(View(), Ctx())
    {
      r := AddWatchParams();
      if r.failure.None? {
        var i := 0;
        while i < |allLoadActions|
          invariant 0 <= i <= |allLoadActions|
          invariant r == Run(Registrations(Ctx(), watchParamDefs).events + LoadDispatches(allLoadActions[..i]), None)
        {
          assert LoadDispatches(allLoadActions[..i + 1]) == LoadDispatches(allLoadActions[..i]) + [Dispatch(allLoadActions[i], NoPayload, false)];
          r := Run(r.events + [Dispatch(allLoadActions[i], NoPayload, false)], None);
          i := i + 1;
        }
        assert allLoadActions[..i] == allLoadActions;
      }
    }
  }

  /** `new BoundStore(store_config)`. */
  method NewBoundStore(cfg: StoreConfig, plugin: Option<PluginConfig>, getDefault: Option<Ctor> -> Value) returns (r: StoreOutcome)
    ensures r == CompileStore(cfg, plugin, getDefault)
  {
    if cfg.namespace.None? {
      return Rejected(MissingNamespace);
    }
    if plugin.None? {
      return Rejected(PluginNotConfigured);
    }
    if cfg.bindings.None? {
      return Rejected(Failed(NotAnObject));
    }
    var ns := cfg.namespace.value;
    var store := new BoundStore(ns, plugin.value, getDefault, cfg.bindings.value);
    var failure := store.GenerateModifications();
    if failure.Some? {
      return Rejected(Failed(failure.value));
    }
    if cfg.state.None? || cfg.mutations.None? || cfg.actions.None? {
      return Rejected(Failed(NotAnObject));
    }
    var finished := Finished(cfg, store.View());
    r := if ns == "" then Built(Root(finished)) else Built(Keyed(ns, finished));
  }

  /** Once a binding fails, the whole walk fails with that error. */
  lemma GenerateErrPersists(ctx: Context, bindings: Dict<Binding>, i: nat)
    requires i <= |bindings|
    requires Generate(ctx, bindings[..i]).Err?
    ensures Generate(ctx, bindings) == Generate(ctx, bindings[..i])
    ensures Compile(ctx, bindings) == Generate(ctx, bindings[..i])
  {
    GeneratePrefixErr(ctx, bindings, i);
  }

  /** A failed walk over all but the last binding fails the whole walk. */
  lemma GenerateFrontErr(ctx: Context, bindings: Dict<Binding>)
    requires bindings != []
    requires Generate(ctx, bindings[..|bindings| - 1]).Err?
    ensures Generate(ctx, bindings) == Generate(ctx, bindings[..|bindings| - 1])
  {
  }

  /** A failed step after a successful walk fails the walk with that
      step's error. */
  lemma GenerateStepErr(ctx: Context, bindings: Dict<Binding>, i: nat)
    requires i < |bindings|
    requires Generate(ctx, bindings[..i]).Ok?
    requires Step(Generate(ctx, bindings[..i]).value, ctx, bindings[i].0, bindings[i].1).Err?
    ensures Generate(ctx, bindings[..i + 1]) ==
            Step(Generate(ctx, bindings[..i]).value, ctx, bindings[i].0, bindings[i].1)
  {
    var t := bindings[..i + 1];
    assert t[..|t| - 1] == bindings[..i];
    assert t[|t| - 1] == bindings[i];
  }

  /** The constructor rejects a store whose compile fails, with that error. */
  lemma CompileStoreErr(cfg: StoreConfig, plugin: PluginConfig, getDefault: Option<Ctor> -> Value)
    requires cfg.namespace.Some? && cfg.bindings.Some?
    requires Compile(Context(cfg.namespace.value, plugin, getDefault), cfg.bindings.value).Err?
    ensures CompileStore(cfg, Some(plugin), getDefault) ==
            Rejected(Failed(Compile(Context(cfg.namespace.value, plugin, getDefault), cfg.bindings.value).fault))
  {
  }

  lemma {:induction false} GeneratePrefixErr(ctx: Context, bindings: Dict<Binding>, i: nat)
    requires i <= |bindings|
    requires Generate(ctx, bindings[..i]).Err?
    ensures Generate(ctx, bindings) == Generate(ctx, bindings[..i])
    decreases |bindings| - i
  {
    if i < |bindings| {
      var front := bindings[..|bindings| - 1];
      assert front[..i] == bindings[..i];
      GeneratePrefixErr(ctx, front, i);
      GenerateFrontErr(ctx, bindings);
    } else {
      assert bindings[..i] == bindings;
    }
  }

  lemma {:induction false} RegistrationsErrPersists(ctx: Context, watchDefs: Dict<Option<Dict<Ctor>>>, i: nat)
    requires i <= |watchDefs|
    requires Registrations(ctx, watchDefs[..i]).failure.Some?
    ensures Registrations(ctx, watchDefs) == Registrations(ctx, watchDefs[..i])
    decreases |watchDefs| - i
  {
    if i < |watchDefs| {
      var n := |watchDefs|;
      assert watchDefs[..n - 1][..i] == watchDefs[..i];
      RegistrationsErrPersists(ctx, watchDefs[..n - 1], i);
    } else {
      assert watchDefs[..i] == watchDefs;
    }
  }

  /** Two names with the same prefix are equal only if the rest is. */
  lemma PrefixCancels(p: string, x: string, y: string)
    ensures p + x == p + y <==> x == y
  {
    if p + x == p + y {
      assert x == (p + x)[|p|..];
      assert y == (p + y)[|p|..];
    }
  }

  /** The parameter fields: each key gets the default of the type of its
      last entry, together with its update mutation. */
  lemma ParamVariablesAt(g: Tables, ctx: Context, t: Dict<Ctor>, i: nat)
    requires i < |t|
    requires forall j :: i < j < |t| ==> t[j].0 != t[i].0
    ensures Get(WithParamVariables(g, ctx, t).state, t[i].0) == Some(ctx.getDefault(Some(t[i].1)))
    ensures Get(WithParamVariables(g, ctx, t).mutations, ctx.plugin.updatePrefix + t[i].0) == Some(SetField(t[i].0))
  {
    ParamStateAt(g, ctx, t, i);
    ParamMutationAt(g, ctx, t, i);
  }

  lemma {:induction false} ParamStateAt(g: Tables, ctx: Context, t: Dict<Ctor>, i: nat)
    requires i < |t|
    requires forall j :: i < j < |t| ==> t[j].0 != t[i].0
    ensures Get(WithParamVariables(g, ctx, t).state, t[i].0) == Some(ctx.getDefault(Some(t[i].1)))
    decreases |t|
  {
    var n := |t|;
    var front := t[..n - 1];
    var w := WithParamVariables(g, ctx, front);
    var last := t[n - 1];
    assert WithParamVariables(g, ctx, t).state == Set(w.state, last.0, ctx.getDefault(Some(last.1)));
    GetSet(w.state, last.0, ctx.getDefault(Some(last.1)), t[i].0);
    if i < n - 1 {
      assert front[i] == t[i];
      ParamStateAt(g, ctx, front, i);
    }
  }

  lemma {:induction false} ParamMutationAt(g: Tables, ctx: Context, t: Dict<Ctor>, i: nat)
    requires i < |t|
    requires forall j :: i < j < |t| ==> t[j].0 != t[i].0
    ensures Get(WithParamVariables(g, ctx, t).mutations, ctx.plugin.updatePrefix + t[i].0) == Some(SetField(t[i].0))
    decreases |t|
  {
    var n := |t|;
    var front := t[..n - 1];
    var w := WithParamVariables(g, ctx, front);
    var last := t[n - 1];
    var up := ctx.plugin.updatePrefix;
    assert WithParamVariables(g, ctx, t).mutations == Set(w.mutations, up + last.0, SetField(last.0));
    GetSet(w.mutations, up + last.0, SetField(last.0), up + t[i].0);
    if i < n - 1 {
      assert front[i] == t[i];
      ParamMutationAt(g, ctx, front, i);
      PrefixCancels(up, last.0, t[i].0);
    }
  }

  /** A name that is no key of the parameter table keeps its field and its
      update mutation. */
  lemma {:induction false} ParamVariablesAbsent(g: Tables, ctx: Context, t: Dict<Ctor>, k: string)
    requires !HasKey(t, k)
    ensures Get(WithParamVariables(g, ctx, t).state, k) == Get(g.state, k)
    ensures Get(WithParamVariables(g, ctx, t).mutations, ctx.plugin.updatePrefix + k) ==
            Get(g.mutations, ctx.plugin.updatePrefix + k)
    decreases |t|
  {
    if t != [] {
      var n := |t|;
      var front := t[..n - 1];
      assert !HasKey(front, k) by {
        forall j | 0 <= j < |front| ensures front[j].0 != k { assert front[j] == t[j]; }
      }
      ParamVariablesAbsent(g, ctx, front, k);
      var w := WithParamVariables(g, ctx, front);
      var last := t[n - 1];
      var up := ctx.plugin.updatePrefix;
      assert last.0 != k;
      GetSet(w.state, last.0, ctx.getDefault(Some(last.1)), k);
      GetSet(w.mutations, up + last.0, SetField(last.0), up + k);
      PrefixCancels(up, last.0, k);
    }
  }

  /** Parameter fields leave actions, load actions and watch definitions alone. */
  lemma {:induction false} ParamVariablesKeepActions(g: Tables, ctx: Context, t: Dict<Ctor>)
    ensures var h := WithParamVariables(g, ctx, t);
            h.actions == g.actions && h.loads == g.loads && h.watchDefs == g.watchDefs
    decreases |t|
  {
    if t != [] {
      ParamVariablesKeepActions(g, ctx, t[..|t| - 1]);
    }
  }

  /** The endpoint and parameter table a successful step resolved. */
  lemma StepBuilds(g: Tables, ctx: Context, out: string, b0: Binding)
    requires Step(g, ctx, out, b0).Ok?
    ensures Get(ctx.plugin.endpoints, Text(b0.endpoint)).Some?
    ensures var e := Get(ctx.plugin.endpoints, Text(b0.endpoint)).value;
            ParamDefs(b0, e).Ok? &&
            Step(g, ctx, out, b0) == Ok(Build(g, ctx, out, b0.(output := Some(out)), e, ParamDefs(b0, e).value))
  {
  }

  /** An output field, with its default and its update mutation, is created
      exactly when the binding is not redirected; a redirected binding leaves
      that name as it was. (The requires rule out the later writes of the same
      step to the same name: a parameter field of that name, or loading names
      that coincide with it.) */
  lemma OutputFieldIffNotRedirected(g: Tables, ctx: Context, out: string, b0: Binding)
    requires Step(g, ctx, out, b0).Ok?
    requires Get(ctx.plugin.endpoints, Text(b0.endpoint)).Some?
    requires var e := Get(ctx.plugin.endpoints, Text(b0.endpoint)).value;
             ParamDefs(b0, e).Ok? &&
             !(b0.createParams && ParamDefs(b0, e).value.Some? && HasKey(ParamDefs(b0, e).value.value, out))
    requires b0.loading ==> ctx.plugin.loadingPrefix != "" &&
                            ctx.plugin.updatePrefix != ctx.plugin.loadingPrefix &&
                            ctx.plugin.updatePrefix != ctx.plugin.donePrefix + ctx.plugin.loadingPrefix
    ensures var h := Step(g, ctx, out, b0).value;
            var e := Get(ctx.plugin.endpoints, Text(b0.endpoint)).value;
            var up := ctx.plugin.updatePrefix;
            && Get(h.state, out) == (if b0.redirect then Get(g.state, out) else Some(ctx.getDefault(e.resultType)))
            && Get(h.mutations, up + out) == (if b0.redirect then Get(g.mutations, up + out) else Some(SetField(out)))
  {
    StepBuilds(g, ctx, out, b0);
    var b := b0.(output := Some(out));
    var e := Get(ctx.plugin.endpoints, Text(b0.endpoint)).value;
    var params := ParamDefs(b0, e).value;
    var up := ctx.plugin.updatePrefix;
    var g1 := if Watched(b) then g.(watchDefs := Set(g.watchDefs, out, params)) else g;
    var g2 := if !b.redirect then WithVariable(g1, ctx, out, e.resultType) else g1;
    var g3 := if params.Some? && b.createParams then WithParamVariables(g2, ctx, params.value) else g2;
    GetSet(g1.state, out, ctx.getDefault(e.resultType), out);
    GetSet(g1.mutations, up + out, SetField(out), up + out);
    assert Get(g3.state, out) == Get(g2.state, out) && Get(g3.mutations, up + out) == Get(g2.mutations, up + out) by {
      if params.Some? && b.createParams {
        ParamVariablesAbsent(g2, ctx, params.value, out);
      }
    }
    if b.loading {
      LoadingKeepsOutput(g3, ctx, out);
    }
  }

  /** The loading names of `out` differ from `out` and from its update
      mutation, so the loading variable leaves both alone. */
  lemma LoadingKeepsOutput(g: Tables, ctx: Context, out: string)
    requires ctx.plugin.loadingPrefix != ""
    requires ctx.plugin.updatePrefix != ctx.plugin.loadingPrefix
    requires ctx.plugin.updatePrefix != ctx.plugin.donePrefix + ctx.plugin.loadingPrefix
    ensures var h := WithLoadingVariable(g, ctx, out);
            var up := ctx.plugin.updatePrefix;
            Get(h.state, out) == Get(g.state, out) && Get(h.mutations, up + out) == Get(g.mutations, up + out)
  {
    var up, lp, dp := ctx.plugin.updatePrefix, ctx.plugin.loadingPrefix, ctx.plugin.donePrefix;
    var ln := lp + out;
    assert ln != out by { assert |ln| != |out|; }
    assert up + out != ln by { PrefixCancels'(up, lp, out); }
    assert up + out != dp + ln by { assert dp + ln == (dp + lp) + out; PrefixCancels'(up, dp + lp, out); }
    GetSet(g.state, ln, Bool(false), out);
    GetSet(g.mutations, ln, SetFlag(ln, true), up + out);
    GetSet(Set(g.mutations, ln, SetFlag(ln, true)), dp + ln, SetFlag(ln, false), up + out);
  }

  /** Two names with the same suffix are equal only if the prefixes are. */
  lemma PrefixCancels'(p: string, q: string, x: string)
    ensures p + x == q + x <==> p == q
  {
    if p + x == q + x {
      assert |p| == |q|;
      assert p == (p + x)[..|p|];
      assert q == (q + x)[..|q|];
    }
  }

  /** With `create_params`, every parameter of the (renamed) table becomes a
      field at its type's default with an update mutation; an output of the
      same name is overwritten by it. The loading names must not be that
      parameter's names. */
  lemma ParamFields(g: Tables, ctx: Context, out: string, b0: Binding, i: nat)
    requires Step(g, ctx, out, b0).Ok?
    requires Get(ctx.plugin.endpoints, Text(b0.endpoint)).Some?
    requires var e := Get(ctx.plugin.endpoints, Text(b0.endpoint)).value;
             var p := ParamDefs(b0, e);
             && p.Ok? && p.value.Some? && b0.createParams
             && i < |p.value.value|
             && (forall j :: i < j < |p.value.value| ==> p.value.value[j].0 != p.value.value[i].0)
             && (b0.loading ==> var k := p.value.value[i].0;
                                var ln := ctx.plugin.loadingPrefix + out;
                                k != ln && ctx.plugin.updatePrefix + k != ln &&
                                ctx.plugin.updatePrefix + k != ctx.plugin.donePrefix + ln)
    ensures var h := Step(g, ctx, out, b0).value;
            var e := Get(ctx.plugin.endpoints, Text(b0.endpoint)).value;
            var t := ParamDefs(b0, e).value.value;
            && Get(h.state, t[i].0) == Some(ctx.getDefault(Some(t[i].1)))
            && Get(h.mutations, ctx.plugin.updatePrefix + t[i].0) == Some(SetField(t[i].0))
  {
    StepBuilds(g, ctx, out, b0);
    var b := b0.(output := Some(out));
    var e := Get(ctx.plugin.endpoints, Text(b0.endpoint)).value;
    var params := ParamDefs(b0, e).value;
    var t := params.value;
    var k := t[i].0;
    var up, lp, dp := ctx.plugin.updatePrefix, ctx.plugin.loadingPrefix, ctx.plugin.donePrefix;
    var g1 := if Watched(b) then g.(watchDefs := Set(g.watchDefs, out, params)) else g;
    var g2 := if !b.redirect then WithVariable(g1, ctx, out, e.resultType) else g1;
    var g3 := WithParamVariables(g2, ctx, t);
    ParamVariablesAt(g2, ctx, t, i);
    if b.loading {
      var ln := lp + out;
      GetSet(g3.state, ln, Bool(false), k);
      GetSet(g3.mutations, ln, SetFlag(ln, true), up + k);
      GetSet(Set(g3.mutations, ln, SetFlag(ln, true)), dp + ln, SetFlag(ln, false), up + k);
    }
  }

  /** A `loading` binding gets the flag `loading_prefix + out`, false at
      first, a mutation of that name setting it and one named
      `done_prefix + loading_prefix + out` clearing it. */
  lemma LoadingFlags(g: Tables, ctx: Context, out: string, b0: Binding)
    requires Step(g, ctx, out, b0).Ok? && b0.loading
    requires ctx.plugin.donePrefix != ""
    ensures var h := Step(g, ctx, out, b0).value;
            var ln := ctx.plugin.loadingPrefix + out;
            var dn := ctx.plugin.donePrefix + ln;
            && Get(h.state, ln) == Some(Bool(false))
            && Get(h.mutations, ln) == Some(SetFlag(ln, true))
            && Get(h.mutations, dn) == Some(SetFlag(ln, false))
            && ApplyMutation(SetFlag(ln, true), h.state, Null) == Some(Set(h.state, ln, Bool(true)))
  {
    StepBuilds(g, ctx, out, b0);
    var b := b0.(output := Some(out));
    var e := Get(ctx.plugin.endpoints, Text(b0.endpoint)).value;
    var params := ParamDefs(b0, e).value;
    var lp, dp := ctx.plugin.loadingPrefix, ctx.plugin.donePrefix;
    var g1 := if Watched(b) then g.(watchDefs := Set(g.watchDefs, out, params)) else g;
    var g2 := if !b.redirect then WithVariable(g1, ctx, out, e.resultType) else g1;
    var g3 := if params.Some? && b.createParams then WithParamVariables(g2, ctx, params.value) else g2;
    var ln := lp + out;
    assert dp + ln != ln by { assert |dp + ln| != |ln|; }
    GetSet(g3.state, ln, Bool(false), ln);
    GetSet(g3.mutations, ln, SetFlag(ln, true), ln);
    GetSet(Set(g3.mutations, ln, SetFlag(ln, true)), dp + ln, SetFlag(ln, false), ln);
    GetSet(Set(g3.mutations, ln, SetFlag(ln, true)), dp + ln, SetFlag(ln, false), dp + ln);
  }

  /** An action the walk generates: a dispatch of the plugin's `bind` at root
      with this store's namespace and no `output` in the payload. */
  predicate CompiledAction(ctx: Context, a: ActionDef)
  {
    a.LoadAction? && a.target == ctx.plugin.namespace + "/bind" &&
    a.payload.namespace == ctx.namespace && a.payload.output.None?
  }

  /** What the walk keeps true: tables with distinct keys, only compiled
      actions, and every listed load action defined. */
  predicate Sound(g: Tables, ctx: Context)
  {
    && UniqueKeys(g.state) && UniqueKeys(g.mutations) && UniqueKeys(g.actions)
    && (forall j :: 0 <= j < |g.actions| ==> CompiledAction(ctx, g.actions[j].1))
    && (forall n :: n in g.loads ==> HasKey(g.actions, n))
  }

  lemma WithVariableSound(g: Tables, ctx: Context, name: string, t: Option<Ctor>)
    requires Sound(g, ctx)
    ensures Sound(WithVariable(g, ctx, name, t), ctx)
  {
    SetKeepsUnique(g.state, name, ctx.getDefault(t));
    SetKeepsUnique(g.mutations, ctx.plugin.updatePrefix + name, SetField(name));
  }

  lemma {:induction false} ParamVariablesSound(g: Tables, ctx: Context, t: Dict<Ctor>)
    requires Sound(g, ctx)
    ensures Sound(WithParamVariables(g, ctx, t), ctx)
    decreases |t|
  {
    if t != [] {
      ParamVariablesSound(g, ctx, t[..|t| - 1]);
      var last := t[|t| - 1];
      WithVariableSound(WithParamVariables(g, ctx, t[..|t| - 1]), ctx, last.0, Some(last.1));
    }
  }

  lemma LoadingVariableSound(g: Tables, ctx: Context, out: string)
    requires Sound(g, ctx)
    ensures Sound(WithLoadingVariable(g, ctx, out), ctx)
  {
    var ln := ctx.plugin.loadingPrefix + out;
    SetKeepsUnique(g.state, ln, Bool(false));
    SetKeepsUnique(g.mutations, ln, SetFlag(ln, true));
    SetKeepsUnique(Set(g.mutations, ln, SetFlag(ln, true)), ctx.plugin.donePrefix + ln, SetFlag(ln, false));
  }

  lemma LoadActionSound(g: Tables, ctx: Context, out: string, b: Binding, e: Endpoint)
    requires Sound(g, ctx)
    ensures Sound(WithLoadAction(g, ctx, out, b, e), ctx)
  {
    var an := ActionName(ctx, out, b);
    var a := LoadAction(ctx.plugin.namespace + "/bind", BindPayload(b, e, ctx.namespace, None));
    var acts := Set(g.actions, an, a);
    SetKeepsUnique(g.actions, an, a);
    SetEntries(g.actions, an, a);
    forall n | n in WithLoadAction(g, ctx, out, b, e).loads ensures HasKey(acts, n) {
      HasKeySet(g.actions, an, a, n);
    }
  }

  lemma BuildSound(g: Tables, ctx: Context, out: string, b: Binding, e: Endpoint, params: Option<Dict<Ctor>>)
    requires Sound(g, ctx)
    ensures Sound(Build(g, ctx, out, b, e, params), ctx)
  {
    var g1 := if Watched(b) then g.(watchDefs := Set(g.watchDefs, out, params)) else g;
    assert Sound(g1, ctx);
    var g2 := if !b.redirect then WithVariable(g1, ctx, out, e.resultType) else g1;
    if !b.redirect { WithVariableSound(g1, ctx, out, e.resultType); }
    var g3 := if params.Some? && b.createParams then WithParamVariables(g2, ctx, params.value) else g2;
    if params.Some? && b.createParams { ParamVariablesSound(g2, ctx, params.value); }
    var g4 := if b.loading then WithLoadingVariable(g3, ctx, out) else g3;
    if b.loading { LoadingVariableSound(g3, ctx, out); }
    LoadActionSound(g4, ctx, out, b, e);
    assert Build(g, ctx, out, b, e, params) == WithLoadAction(g4, ctx, out, b, e);
  }

  /** Every successful walk is sound. */
  lemma {:induction false} GenerateSound(ctx: Context, bindings: Dict<Binding>)
    requires Generate(ctx, bindings).Ok?
    ensures Sound(Generate(ctx, bindings).value, ctx)
    decreases |bindings|
  {
    if bindings != [] {
      var front := bindings[..|bindings| - 1];
      var last := bindings[|bindings| - 1];
      GenerateSound(ctx, front);
      StepBuilds(Generate(ctx, front).value, ctx, last.0, last.1);
      var b := last.1.(output := Some(last.0));
      var e := Get(ctx.plugin.endpoints, Text(last.1.endpoint)).value;
      BuildSound(Generate(ctx, front).value, ctx, last.0, b, e, ParamDefs(last.1, e).value);
    }
  }

  /** Every action the compiled store defines besides `start_bind` dispatches
      the plugin's `bind` at root with this store's namespace and with no
      `output` in the payload, and every listed load action is defined. */
  lemma CompiledActions(ctx: Context, bindings: Dict<Binding>)
    requires Compile(ctx, bindings).Ok?
    ensures var c := Compile(ctx, bindings).value;
            && (forall j :: 0 <= j < |c.actions| ==> c.actions[j].0 == "start_bind" || CompiledAction(ctx, c.actions[j].1))
            && (forall n :: n in c.loads ==> HasKey(c.actions, n))
            && Get(c.actions, "start_bind") == Some(StartBindAction)
  {
    GenerateSound(ctx, bindings);
    var g := Generate(ctx, bindings).value;
    SetEntries(g.actions, "start_bind", StartBindAction);
    GetSet(g.actions, "start_bind", StartBindAction, "start_bind");
    var c := Compile(ctx, bindings).value;
    forall j | 0 <= j < |c.actions| ensures c.actions[j].0 == "start_bind" || CompiledAction(ctx, c.actions[j].1) {
      if c.actions[j] != ("start_bind", StartBindAction) {
        var i :| 0 <= i < |g.actions| && g.actions[i] == c.actions[j];
      }
    }
    forall n | n in c.loads ensures HasKey(c.actions, n) {
      HasKeySet(g.actions, "start_bind", StartBindAction, n);
    }
  }

  /** The load actions, declared order: `load_prefix + name` for each
      binding that is not a trigger. */
  function LoadNames(ctx: Context, bindings: Dict<Binding>): seq<string>
    decreases |bindings|
  {
    if bindings == [] then []
    else
      var last := bindings[|bindings| - 1];
      LoadNames(ctx, bindings[..|bindings| - 1]) +
      (if last.1.mode == Trigger then [] else [ctx.plugin.loadPrefix + last.0])
  }

  /** `all_load_actions` lists exactly the non-trigger bindings' load actions,
      in declaration order. */
  lemma {:induction false} LoadActionsInOrder(ctx: Context, bindings: Dict<Binding>)
    requires Generate(ctx, bindings).Ok?
    ensures Generate(ctx, bindings).value.loads == LoadNames(ctx, bindings)
    decreases |bindings|
  {
    if bindings != [] {
      var front := bindings[..|bindings| - 1];
      var last := bindings[|bindings| - 1];
      LoadActionsInOrder(ctx, front);
      var g := Generate(ctx, front).value;
      StepBuilds(g, ctx, last.0, last.1);
      var b := last.1.(output := Some(last.0));
      var e := Get(ctx.plugin.endpoints, Text(last.1.endpoint)).value;
      var params := ParamDefs(last.1, e).value;
      var g1 := if Watched(b) then g.(watchDefs := Set(g.watchDefs, last.0, params)) else g;
      var g2 := if !b.redirect then WithVariable(g1, ctx, last.0, e.resultType) else g1;
      if params.Some? && b.createParams { ParamVariablesKeepActions(g2, ctx, params.value); }
    }
  }

  /** One step adds a watch definition for its output exactly when the
      binding is watched. */
  lemma StepWatchDefs(g: Tables, ctx: Context, out: string, b0: Binding, k: string)
    requires Step(g, ctx, out, b0).Ok?
    ensures HasKey(Step(g, ctx, out, b0).value.watchDefs, k) <==> (k == out && Watched(b0)) || HasKey(g.watchDefs, k)
  {
    StepBuilds(g, ctx, out, b0);
    var b := b0.(output := Some(out));
    var e := Get(ctx.plugin.endpoints, Text(b0.endpoint)).value;
    var params := ParamDefs(b0, e).value;
    var g1 := if Watched(b) then g.(watchDefs := Set(g.watchDefs, out, params)) else g;
    var g2 := if !b.redirect then WithVariable(g1, ctx, out, e.resultType) else g1;
    if params.Some? && b.createParams { ParamVariablesKeepActions(g2, ctx, params.value); }
    HasKeySet(g.watchDefs, out, params, k);
    assert Watched(b) == Watched(b0);
  }

  /** A successful walk is the last step after a successful walk over the
      bindings before it. */
  lemma GenerateOkStep(ctx: Context, bindings: Dict<Binding>)
    requires bindings != [] && Generate(ctx, bindings).Ok?
    ensures Generate(ctx, bindings[..|bindings| - 1]).Ok?
    ensures Generate(ctx, bindings) ==
            Step(Generate(ctx, bindings[..|bindings| - 1]).value, ctx,
                 bindings[|bindings| - 1].0, bindings[|bindings| - 1].1)
  {
  }

  /** Some binding declared under `k` is a `watch` or `change` binding. */
  ghost predicate WatchedAt(bindings: Dict<Binding>, k: string)
  {
    exists i :: 0 <= i < |bindings| && bindings[i].0 == k && Watched(bindings[i].1)
  }

  lemma WatchedAtFront(bindings: Dict<Binding>, k: string)
    requires bindings != []
    ensures WatchedAt(bindings, k) <==>
            WatchedAt(bindings[..|bindings| - 1], k) ||
            (bindings[|bindings| - 1].0 == k && Watched(bindings[|bindings| - 1].1))
  {
    var n := |bindings|;
    var front := bindings[..n - 1];
    if WatchedAt(bindings, k) {
      var i :| 0 <= i < n && bindings[i].0 == k && Watched(bindings[i].1);
      if i < n - 1 { assert front[i] == bindings[i]; }
    }
    if WatchedAt(front, k) {
      var i :| 0 <= i < n - 1 && front[i].0 == k && Watched(front[i].1);
      assert bindings[i] == front[i];
    }
  }

  /** Watch definitions exist exactly for the outputs of `watch` and `change`
      bindings. */
  lemma {:induction false} WatchDefsOnlyWatched(ctx: Context, bindings: Dict<Binding>, k: string)
    requires Generate(ctx, bindings).Ok?
    ensures HasKey(Generate(ctx, bindings).value.watchDefs, k) <==> WatchedAt(bindings, k)
    decreases |bindings|
  {
    if bindings != [] {
      var front := bindings[..|bindings| - 1];
      var last := bindings[|bindings| - 1];
      GenerateOkStep(ctx, bindings);
      WatchDefsOnlyWatched(ctx, front, k);
      StepWatchDefs(Generate(ctx, front).value, ctx, last.0, last.1, k);
      WatchedAtFront(bindings, k);
    }
  }

  /** With every watch definition present, `add_watch_params` commits one
      registration per watched output, in order, and does not fail. */
  lemma {:induction false} RegistrationsAll(ctx: Context, watchDefs: Dict<Option<Dict<Ctor>>>)
    requires forall i :: 0 <= i < |watchDefs| ==> watchDefs[i].1.Some?
    ensures var r := Registrations(ctx, watchDefs);
            && r.failure.None?
            && |r.events| == |watchDefs|
            && forall i :: 0 <= i < |watchDefs| ==> r.events[i] == Registration(ctx, watchDefs[i].0, watchDefs[i].1.value)
    decreases |watchDefs|
  {
    if watchDefs != [] {
      var front := watchDefs[..|watchDefs| - 1];
      assert forall i :: 0 <= i < |front| ==> front[i] == watchDefs[i];
      RegistrationsAll(ctx, front);
    }
  }

  /** The only exception `add_watch_params` raises is the one of
      `Object.keys(undefined)`. */
  lemma {:induction false} RegistrationsFailureKind(ctx: Context, watchDefs: Dict<Option<Dict<Ctor>>>)
    ensures Registrations(ctx, watchDefs).failure.Some? ==> Registrations(ctx, watchDefs).failure == Some(NotAnObject)
    decreases |watchDefs|
  {
    if watchDefs != [] {
      RegistrationsFailureKind(ctx, watchDefs[..|watchDefs| - 1]);
    }
  }

  /** A watched output without a parameter table makes `add_watch_params`,
      and so `start_bind`, throw before any load action is dispatched. */
  lemma {:induction false} RegistrationsFail(ctx: Context, watchDefs: Dict<Option<Dict<Ctor>>>, i: nat)
    requires i < |watchDefs| && watchDefs[i].1.None?
    ensures Registrations(ctx, watchDefs).failure == Some(NotAnObject)
    decreases |watchDefs|
  {
    var front := watchDefs[..|watchDefs| - 1];
    RegistrationsFailureKind(ctx, watchDefs);
    if i < |watchDefs| - 1 {
      assert front[i] == watchDefs[i];
      RegistrationsFail(ctx, front, i);
    }
  }

  lemma StartBindFails(g: Tables, ctx: Context, i: nat)
    requires i < |g.watchDefs| && g.watchDefs[i].1.None?
    ensures StartBindRun(g, ctx) == Run(Registrations(ctx, g.watchDefs).events, Some(NotAnObject))
    ensures forall e :: e in StartBindRun(g, ctx).events ==> e.Commit?
  {
    RegistrationsFail(ctx, g.watchDefs, i);
    RegistrationsCommitOnly(ctx, g.watchDefs);
  }

  lemma {:induction false} RegistrationsCommitOnly(ctx: Context, watchDefs: Dict<Option<Dict<Ctor>>>)
    ensures forall e :: e in Registrations(ctx, watchDefs).events ==> e.Commit?
    decreases |watchDefs|
  {
    if watchDefs != [] {
      RegistrationsCommitOnly(ctx, watchDefs[..|watchDefs| - 1]);
    }
  }

  /** `start_bind`: first one `watch_params` registration per watched output,
      committed at root with action `namespace + load_prefix + output` and the
      update mutations of its parameters; then each load action dispatched,
      in order. */
  lemma StartBindOrder(g: Tables, ctx: Context)
    requires forall i :: 0 <= i < |g.watchDefs| ==> g.watchDefs[i].1.Some?
    ensures var r := StartBindRun(g, ctx);
            var w := |g.watchDefs|;
            && r.failure.None?
            && |r.events| == w + |g.loads|
            && (forall i :: 0 <= i < w ==>
                  r.events[i] == Commit(ctx.plugin.namespace + "/watch_params",
                                        WatchRegistration(ctx.namespace + ctx.plugin.loadPrefix + g.watchDefs[i].0,
                                                          WatchedMutations(ctx, g.watchDefs[i].1.value)), true))
            && (forall j :: 0 <= j < |g.loads| ==> r.events[w + j] == Dispatch(g.loads[j], NoPayload, false))
  {
    RegistrationsAll(ctx, g.watchDefs);
  }

  /** A binding naming an endpoint the plugin does not know rejects the store
      with a message naming that endpoint, strict or not. */
  lemma UnknownEndpointRejects(cfg: StoreConfig, plugin: PluginConfig, getDefault: Option<Ctor> -> Value, i: nat)
    requires cfg.namespace.Some? && cfg.bindings.Some?
    requires i < |cfg.bindings.value|
    requires Generate(Context(cfg.namespace.value, plugin, getDefault), cfg.bindings.value[..i]).Ok?
    requires Get(plugin.endpoints, Text(cfg.bindings.value[i].1.endpoint)).None?
    ensures CompileStore(cfg, Some(plugin), getDefault) ==
            Rejected(Failed(Thrown("Tried to bind to unknown endpoint : " + Text(cfg.bindings.value[i].1.endpoint))))
  {
    var ctx := Context(cfg.namespace.value, plugin, getDefault);
    var bs := cfg.bindings.value;
    var f := UnknownEndpoint(bs[i].1);
    assert Step(Generate(ctx, bs[..i]).value, ctx, bs[i].0, bs[i].1) == Err(f);
    GenerateStepErr(ctx, bs, i);
    GenerateErrPersists(ctx, bs, i + 1);
    CompileStoreErr(cfg, plugin, getDefault);
  }

  /** The constructor's result: `bindings` and `namespace` gone, `namespaced`
      true, the configuration itself for the root namespace and keyed by the
      namespace otherwise; every generated state field, mutation and action
      overwrites a given one of the same name, and every other given entry is
      kept. */
  lemma CompileShape(cfg: StoreConfig, plugin: PluginConfig, getDefault: Option<Ctor> -> Value, k: string)
    requires CompileStore(cfg, Some(plugin), getDefault).Built?
    ensures cfg.namespace.Some? && cfg.bindings.Some? && cfg.state.Some? && cfg.mutations.Some? && cfg.actions.Some?
    ensures var ns := cfg.namespace.value;
            var ctx := Context(ns, plugin, getDefault);
            var out := CompileStore(cfg, Some(plugin), getDefault).store;
            var g := Compile(ctx, cfg.bindings.value).value;
            var c := out.config;
            && (out.Root? <==> ns == "")
            && (out.Keyed? ==> out.namespace == ns)
            && c.namespace.None? && c.bindings.None? && c.namespaced == Some(true)
            && Get(c.state.value, k) == (if HasKey(g.state, k) then Get(g.state, k) else Get(cfg.state.value, k))
            && Get(c.mutations.value, k) == (if HasKey(g.mutations, k) then Get(g.mutations, k) else Get(cfg.mutations.value, k))
            && Get(c.actions.value, k) == (if HasKey(g.actions, k) then Get(g.actions, k) else Get(cfg.actions.value, k))
  {
    var ctx := Context(cfg.namespace.value, plugin, getDefault);
    GenerateSound(ctx, cfg.bindings.value);
    var g0 := Generate(ctx, cfg.bindings.value).value;
    SetKeepsUnique(g0.actions, "start_bind", StartBindAction);
    var g := Compile(ctx, cfg.bindings.value).value;
    GetAssign(cfg.state.value, g.state, k);
    GetAssign(cfg.mutations.value, g.mutations, k);
    GetAssign(cfg.actions.value, g.actions, k);
  }
}
