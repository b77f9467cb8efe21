# vuex-bind-plugin, modelled in Dafny

vuex-bind-plugin connects Vuex stores to REST endpoints. A store declares
**bindings**, each naming an endpoint. From them the plugin builds the state
fields, mutations and actions that load each endpoint's data into the store.
The data goes through a data source, REST or mock.

This project models the plugin's core:

- **Parameter renaming** (`src/utils.js`). `reverse_map` and
  `map_endpoint_types` rename an endpoint's parameter table through a
  binding's `param_map`.
- **Naming conventions** (`src/naming.js`). The snake-case and camel-case
  name builders.
- **Data sources** (`src/data_sources.js`). Endpoint defaults, request
  arguments, response unwrapping, and the source's `{url, headers}` state
  with its two mutations.
- **Plugin configuration** (`src/bind_plugin.js`). The defaults, the choice
  of data source, and the subscriber that dispatches watching actions after
  a mutation.
- **The binding compiler** (`src/bound_store.js`). It walks a store's
  bindings in declaration order and generates the store.
  - Per binding: the output field, the parameter fields, the loading flags,
    the load or trigger action, and the watch definitions.
  - Once per store: the `start_bind` action, which registers the watches
    and dispatches every load action.
- **The bind module** (`src/bind_module.js`).
  - Its state and mutation tables, composed with the source's.
  - The watch and interval tables its mutations keep.
  - The `bind`, `watch` and `once` actions.
  - `pull_params_from`, the gate that holds a fetch back while a parameter
    still equals its type's zero value.
- **Component helpers** (`src/importers.js`). `mapBindings`,
  `mapBindingsWithLoading`, `mapParams`, `syncParams`, `mapTriggerActions`,
  and the namespace walk under them.
- **`Modules`** (`src/exports.js`). It compiles each configuration that has
  both a namespace and bindings, and warns about each that has only one.

How the model represents the source:

- **Objects and values.**
  - A JavaScript object is an ordered association list (`Dicts`). Assigning
    a key replaces it where it stands or appends it.
  - JavaScript values are a datatype (`Js`).
  - `JSON.stringify` equality is equality of the value `JSON.parse` would
    rebuild.
- **Exceptions.** An exception is a `Result` error carrying the message the
  engine or the source gives.
- **Effects.** Commits, dispatches and timers become an event trace
  (`Bindings.Event`). The network response and the handle `setInterval`
  returns are parameters.
- **Imperative code.** Code that updates objects in place becomes classes
  whose methods are proved against specification functions:
  - the compiler's working object (`BoundStore.BoundStore`);
  - the module state (`BindModule.ModuleState`);
  - the plugin's static configuration (`BindPlugin.Plugin`);
  - endpoint objects (`DataSources.EndpointObject`).

  Loops become `while` loops with invariants.

Several points below follow the code rather than its tests or the intent
its names suggest:

- **The compiler's payload has no `output`.** A successful `once`
  therefore commits to `<namespace>undefined`, and `watch` names its
  interval the same way (`BindModule.CompiledLoadCommitsToUndefined`).
- **`watch_param` cannot create a new watch list.** For a mutation that
  has no list yet, it writes through `state.watch_param`, which does not
  exist, and throws. Appends to earlier lists in the same call have already
  taken effect (`BindModule.WatchParamOkIff`,
  `BindModule.WatchParamOnNewKeyFails`).
- **The watch registration names a mutation that does not exist.** It is
  committed as `watch_params`, but the module defines `watch_param`
  (`BindModule.RegistrationNamesNoMutation`).
- **Strict mode never warns.** Its check parses as `(!x) instanceof T`.
  That is `false`, except that it throws a TypeError when a parameter was
  renamed away (`BindModule.PullValues`).
- **An empty namespace does not count.** `Modules` treats `namespace: ""`
  as missing (`Exports.EmptyNamespaceIsMissing`). A compiled store is also
  keyed twice by its namespace: `{ns: {ns: config}}`
  (`Exports.CompiledStoreNestsTwice`).

## Model

| member | source | states |
|---|---|---|
| Utils.ReverseMap | src/utils.js:2-4 | specification function with no contract of its own; its promises are ReverseMapLastKeyWins, ReverseMapAbsent and ReverseMapInverts |
| Utils.ReverseMapLastKeyWins | src/utils.js:2-4 | each value of the map maps back to the last key that carries it |
| Utils.ReverseMapAbsent | src/utils.js:2-4 | a string that is no value of the map has no entry in the reverse |
| Utils.ReverseMapInverts | src/utils.js:2-4 | with distinct values, reversing is an exact swap: every value maps back to its own key |
| Utils.MapEndpointTypes | src/utils.js:6-21 | with no `param_map` the type table is returned unchanged |
| Utils.LocalName | src/utils.js:12-15 | specification function with no contract of its own; LocalNameOf states which name each parameter gets |
| Utils.LocalNameOf | src/utils.js:12-15 | a parameter no state field maps to keeps its name; otherwise it takes the last state field mapped to it, unless that name is empty |
| Utils.MapEndpointTypesShape | src/utils.js:6-21 | when the renamed keys are distinct, the result is exactly the renamed entries, in parameter order |
| Utils.MapEndpointTypesGet | src/utils.js:9-17 | each renamed name holds the type of the last parameter renamed to it |
| Utils.EmptyParamMapKeepsTable | src/utils.js:7-17 | an empty (truthy) `param_map` renames nothing |
| Utils.RenamingCanCollide | src/utils.js:9-17 | with `{a: "b"}` over parameters `a` and `b`, the two collapse into one entry, `a: String` |
| Utils.Nullable | src/utils.js:23 | the matcher names the nullable type `"nullable"` |
| Utils.ZeroOf | src/utils.js:25 | `Zero(x)` is a thunk that returns `x` |
| Naming.Capitalize | src/naming.js:48 | same length; the first character upper-cased and the rest unchanged |
| Naming.NewSnakeCase | src/naming.js:12-28 | a snake-case convention with the default prefixes (also `SnakeCase()` of src/exports.js:33) |
| Naming.NewCamelCase | src/naming.js:30-46 | a camel-case convention with the default prefixes (also `CamelCase()` of src/exports.js:34) |
| Naming.SnakeCaseNames | src/naming.js:12-28 | each name is its prefix, `_`, then the name; `done` is joined to the loading name |
| Naming.SnakeCaseDefaults | src/naming.js:2-28 | with the defaults, `x` gives `update_x`, `load_x`, `loading_x`, `done_loading_x` and `trigger_x` |
| Naming.SnakeCaseInjective | src/naming.js:12-28 | for one prefix, two snake-case names are equal exactly when the names are |
| Naming.CamelCaseDefaults | src/naming.js:30-48 | with the defaults, `hello` gives `updateHello`, `loadHello`, `loadingHello` and `triggerHello` |
| Naming.CamelCaseDoneDefault | src/naming.js:30-48 | with the defaults, the `done` name of `hello` is `doneLoadingHello` |
| Naming.CamelCaseCollisions | src/naming.js:30-48 | for one prefix, two camel-case names are equal exactly when both names are empty or they differ at most in the case of their first letter |
| Naming.CamelCaseFooCollidesWithFoo | src/naming.js:30-48 | `foo` and `Foo` get the same update name |
| Js.Prop | src/importers.js:56 | reading a property throws exactly on `undefined` and `null`; an object gives its field or `undefined`; an array or string gives its `length` and its item (a one-character string) per index key, `undefined` past the end or for any other key; booleans and numbers give `undefined` |
| Js.IndexTextIsKey | src/importers.js:56 | `String(n)` of a natural number is an index key that denotes `n` |
| Js.IndexKeyIsText | src/importers.js:56 | every index key is `String(n)` of the number it denotes, so index keys and naturals correspond one to one |
| Js.IndexRead | src/importers.js:56 | reading `String(i)` of an array gives item `i`, or `undefined` past the end; of a string, its character `i` |
| Js.UnsetIff | src/bind_module.js:73 | a value is unset exactly when it JSON-stringifies like its type's zero value |
| DataSources.BaseDefaults | src/data_sources.js:5-8 | an absent `params` becomes `{}`, an absent `type` becomes `Object`, and nothing else changes |
| DataSources.RestDefaults | src/data_sources.js:40-44 | the base defaults, then a falsy `url` becomes `/name` and a falsy `method` becomes `get` |
| DataSources.Defaulted | src/data_sources.js:5-8 | specification function with no contract of its own; each source's `apply_defaults`; DefaultsIdempotent and DefaultsFillEveryField state its promises |
| DataSources.DefaultsIdempotent | src/data_sources.js:5-8 | applying the defaults twice is applying them once, for either source |
| DataSources.DefaultsFillEveryField | src/data_sources.js:40-44 | after the defaults, `params` and `type` are set, and for REST `url` and `method` are truthy |
| DataSources.ApplyBaseDefaults | src/data_sources.js:5-8 | the endpoint object, changed in place, is the base defaults of its old value |
| DataSources.ApplyDefaults | src/data_sources.js:40-44 | the endpoint object, changed in place, is each source's defaults of its old value |
| DataSources.EndpointObject.constructor | src/data_sources.js:5 | an endpoint object holding the given fields |
| DataSources.NewRest | src/data_sources.js:32-39 | a REST source; the given `url` or `""`, and the given headers or `{"Content-Type": "application/json"}` |
| DataSources.NewMock | src/data_sources.js:63-72 | a mock source; the given `url` or `""`, the given headers or `{}`, and a transform or the default that returns `mock_data` |
| DataSources.Args | src/data_sources.js:13-22 | REST: one request with the method, base URL, URL and headers; parameters go in `params` for GET and in `data` otherwise. Mock: one `{endpoint, input_params}` record |
| DataSources.Module | src/data_sources.js:12 | specification function with no contract of its own; the source's `module` applied to the request; RestOnceCommitsData and MockOnceCommitsMockData state what `once` gets from it |
| DataSources.Assign | src/data_sources.js:23 | REST unwraps a truthy `response.data`, else gives `null`, and throws on an undefined or null response; mock returns the data unchanged |
| DataSources.WithHeader | src/data_sources.js:29 | `update_header` succeeds exactly on an object; it sets that header and keeps the others |
| BindPlugin.ChooseSource | src/bind_plugin.js:19 | a mock source exactly when `initial_state.mock` is truthy, built from the initial state |
| BindPlugin.Configured | src/bind_plugin.js:6-29 | each of the eleven options is kept when given and takes its own default when undefined (`{}` endpoints, `bind`, the five underscore prefixes, `false` flags); the data source is chosen from the defaulted initial state |
| BindPlugin.DefaultConfiguration | src/bind_plugin.js:6-29 | no options: namespace `bind`, the five underscore prefixes, not strict, no logging, no endpoints, and REST with URL `""` and headers `"application/json"` |
| BindPlugin.SourceChoice | src/bind_plugin.js:7-19 | the configured source is mock exactly when an initial state is given and its `mock` is truthy |
| BindPlugin.Plugin.constructor | src/bind_plugin.js:5 | the static configuration starts empty |
| BindPlugin.Plugin.Configure | src/bind_plugin.js:19-29 | `new BindPlugin(options)` writes the configured configuration |
| BindPlugin.OnMutation | src/bind_plugin.js:32-37 | after a mutation, every action listed for its type is dispatched, in order; a type with no list dispatches nothing |
| BoundStore.ApplyMutation | src/bound_store.js:73-81 | an update mutation sets its field to the payload, a loading mutation sets its flag, and every other field is unchanged |
| BoundStore.ParamDefs | src/bound_store.js:46 | the renamed table when there is a `param_map`, which throws exactly when the endpoint has no parameter table; otherwise the endpoint's own table |
| BoundStore.WatchedMutations | src/bound_store.js:111 | one name per parameter field: the store namespace, the update prefix and the field |
| BoundStore.LoadDispatches | src/bound_store.js:103 | one dispatch per load action, in order |
| BoundStore.BoundStore.constructor | src/bound_store.js:13-21 | the compiler's working object starts with empty tables |
| BoundStore.BoundStore.CreateVariable | src/bound_store.js:71-74 | the field at its type's default, and its `update_prefix` mutation |
| BoundStore.BoundStore.CreateParamVariables | src/bound_store.js:57-59 | one `create_variable` per parameter, in order |
| BoundStore.BoundStore.CreateLoadingVariable | src/bound_store.js:76-82 | the loading flag, its setting mutation and its `done` mutation |
| BoundStore.BoundStore.CreateLoadAction | src/bound_store.js:84-98 | the trigger or load action dispatching the plugin's `bind`; a load action is also listed |
| BoundStore.BoundStore.CreateStartBindAction | src/bound_store.js:100-105 | the `start_bind` action is defined |
| BoundStore.BoundStore.BindOne | src/bound_store.js:37-66 | one pass of the loop leaves the tables as the specification's step does; when it throws, it reports the step's exception and has changed nothing, since every throw precedes the first write |
| BoundStore.BoundStore.GenerateModifications | src/bound_store.js:36-69 | the whole walk, then `start_bind`, equals the compile specification |
| BoundStore.BoundStore.AddWatchParams | src/bound_store.js:107-114 | the commits made, and the exception, equal the registration specification |
| BoundStore.BoundStore.StartBind | src/bound_store.js:101-104 | the events of `start_bind` equal its specification |
| BoundStore.NewBoundStore | src/bound_store.js:5-34 | the constructor throws for a missing namespace or an unconfigured plugin; otherwise it compiles as specified |
| BoundStore.Step | src/bound_store.js:38-66 | specification function with no contract of its own; one pass of the loop; StepBuilds, StepWatchDefs, OutputFieldIffNotRedirected, ParamFields and LoadingFlags state its promises |
| BoundStore.Build | src/bound_store.js:48-66 | specification function with no contract of its own; what a binding adds; BuildSound states the invariant it keeps |
| BoundStore.Generate | src/bound_store.js:37-67 | specification function with no contract of its own; the loop over the bindings; GenerateErrPersists, GenerateSound and WatchDefsOnlyWatched state its promises |
| BoundStore.Compile | src/bound_store.js:36-69 | specification function with no contract of its own; `generate_modifications`; CompiledActions and LoadActionsInOrder state its promises |
| BoundStore.CompileStore | src/bound_store.js:5-34 | specification function with no contract of its own; the constructor's outcome; CompileShape, UnknownEndpointRejects and CompileStoreErr state its promises |
| BoundStore.Registrations | src/bound_store.js:107-114 | specification function with no contract of its own; `add_watch_params`; RegistrationsAll, RegistrationsFail, RegistrationsFailureKind and RegistrationsCommitOnly state its promises |
| BoundStore.StartBindRun | src/bound_store.js:100-105 | specification function with no contract of its own; the `start_bind` action; StartBindOrder and StartBindFails state its promises |
| BoundStore.GenerateErrPersists | src/bound_store.js:37-44 | once a binding throws, every longer walk throws the same |
| BoundStore.GenerateStepErr | src/bound_store.js:37-44 | a binding that throws after a successful walk makes the walk up to it throw that error |
| BoundStore.CompileStoreErr | src/bound_store.js:24-33 | a compile that throws makes the constructor throw that error |
| BoundStore.RegistrationsErrPersists | src/bound_store.js:108-113 | once a registration throws, every longer one throws the same |
| BoundStore.StepBuilds | src/bound_store.js:40-46 | a successful step found its endpoint and its parameter table |
| BoundStore.ParamVariablesAt | src/bound_store.js:57-59 | each parameter key gets the default of its last type, with its update mutation |
| BoundStore.ParamStateAt | src/bound_store.js:57-59 | each parameter key's field holds the default of its last type |
| BoundStore.ParamMutationAt | src/bound_store.js:57-59 | each parameter key has its update mutation |
| BoundStore.ParamVariablesAbsent | src/bound_store.js:57-59 | a name that is no parameter keeps its field and its mutation |
| BoundStore.ParamVariablesKeepActions | src/bound_store.js:57-59 | parameter fields leave the actions, load actions and watch definitions alone |
| BoundStore.OutputFieldIffNotRedirected | src/bound_store.js:52-54 | the output field and its update mutation are created exactly when the binding is not redirected |
| BoundStore.LoadingKeepsOutput | src/bound_store.js:76-82 | under distinct prefixes, the loading flag leaves the output field and its update mutation untouched |
| BoundStore.ParamFields | src/bound_store.js:56-60 | with `create_params`, every parameter of the renamed table is a field at its default, with an update mutation |
| BoundStore.LoadingFlags | src/bound_store.js:62-64 | a `loading` binding gets its flag, false at first, set by one mutation and cleared by the `done` one |
| BoundStore.WithVariableSound | src/bound_store.js:71-74 | creating a variable keeps the tables sound |
| BoundStore.ParamVariablesSound | src/bound_store.js:57-59 | the parameter fields keep the tables sound |
| BoundStore.LoadingVariableSound | src/bound_store.js:76-82 | the loading flag and its two mutations keep the tables sound |
| BoundStore.LoadActionSound | src/bound_store.js:84-98 | the load action keeps the tables sound |
| BoundStore.BuildSound | src/bound_store.js:48-66 | one binding keeps the tables sound (distinct keys, compiled actions, listed load actions defined) |
| BoundStore.GenerateSound | src/bound_store.js:37-67 | every successful walk is sound |
| BoundStore.CompiledActions | src/bound_store.js:84-105 | every action besides `start_bind` dispatches the plugin's `bind` at root with this namespace and no `output`; every load action is defined |
| BoundStore.LoadActionsInOrder | src/bound_store.js:85-89 | the load actions are exactly the non-trigger bindings' `load_` names, in declaration order |
| BoundStore.StepWatchDefs | src/bound_store.js:48-50 | one binding adds a watch definition for its output exactly when it is a `watch` or `change` binding |
| BoundStore.WatchDefsOnlyWatched | src/bound_store.js:48-50 | watch definitions exist exactly for `watch` and `change` bindings |
| BoundStore.RegistrationsAll | src/bound_store.js:107-114 | with every watch table present: one root registration per watched output, in order, and no exception |
| BoundStore.RegistrationsFailureKind | src/bound_store.js:111 | the only exception is `Object.keys` of `undefined` |
| BoundStore.RegistrationsFail | src/bound_store.js:111 | a watched output with no parameter table makes the registration throw |
| BoundStore.StartBindFails | src/bound_store.js:101-104 | such an output makes `start_bind` throw before it dispatches anything |
| BoundStore.RegistrationsCommitOnly | src/bound_store.js:107-114 | the registration makes only root commits |
| BoundStore.StartBindOrder | src/bound_store.js:101-104 | `start_bind`: the registrations first, then each load action, in order |
| BoundStore.UnknownEndpointRejects | src/bound_store.js:40-44 | a binding to an unknown endpoint rejects the store with a message naming that endpoint |
| BoundStore.CompileShape | src/bound_store.js:24-33 | `bindings` and `namespace` are gone and `namespaced` is true; the root namespace gives the configuration itself, any other a keyed object; generated entries overwrite given ones and the rest stay |
| BindModule.ComposeState | src/bind_module.js:9-14 | specification function with no contract of its own; the module's state; SourceStateWins and RestModuleState state its promises |
| BindModule.ComposeMutations | src/bind_module.js:15-40 | specification function with no contract of its own; the module's mutations; BuiltinMutationsWin and RegistrationNamesNoMutation state its promises |
| BindModule.SourceStateWins | src/bind_module.js:9-14 | a source state field wins over a built-in one of the same name; every other built-in stays |
| BindModule.BuiltinMutationsWin | src/bind_module.js:15-40 | the built-in mutations win over source ones of the same name; every other source mutation stays |
| BindModule.RestModuleState | src/bind_module.js:9-14 | with a REST or mock source the state is `bind_url`, `intervals`, `watch_params`, `url` and `headers` |
| BindModule.RegistrationNamesNoMutation | src/bound_store.js:109 | the registration commits `watch_params`, which the composed module lacks; it defines only `watch_param` |
| BindModule.ModuleState.constructor | src/bind_module.js:9-14 | the composed state: empty tables and the source's URL and headers |
| BindModule.ModuleState.WatchParam | src/bind_module.js:17-25 | the watch table and the exception are as the as-written specification gives them; nothing else changes |
| BindModule.ModuleState.UpdateInterval | src/bind_module.js:26-29 | the old handle is cleared and the new one is stored under its name |
| BindModule.ModuleState.DeleteInterval | src/bind_module.js:30-33 | the handle is cleared and the entry becomes `null` |
| BindModule.ModuleState.ClearIntervals | src/bind_module.js:34-39 | every stored handle is cleared, in table order, and the table emptied |
| BindModule.ModuleState.UpdateHeader | src/data_sources.js:29 | sets the header on an object and throws otherwise, changing nothing else |
| BindModule.ModuleState.UpdateUrl | src/data_sources.js:30 | sets the URL, changing nothing else |
| BindModule.AppendWatch | src/bind_module.js:17-25 | specification function with no contract of its own; `watch_param` as written; AppendWatchKeepsKeys, WatchParamOkIff, WatchParamAppends, RegisteredActionFiresLast and WatchParamOnNewKeyFails state its promises |
| BindModule.AppendWatchKeepsKeys | src/bind_module.js:18-24 | `watch_param` never adds or removes a key |
| BindModule.WatchParamOkIff | src/bind_module.js:18-24 | `watch_param` succeeds exactly when every listed mutation already has a list |
| BindModule.WatchParamAppends | src/bind_module.js:18-21 | on success each list gains the action once per listing and keeps what it held |
| BindModule.RegisteredActionFiresLast | src/bind_module.js:20 | after a registration, the action is last in each listed mutation's list |
| BindModule.WatchParamOnNewKeyFails | src/bind_module.js:19-22 | concretely: the first key's list is extended, then the new key throws |
| BindModule.HandlesAreStored | src/bind_module.js:35-37 | the handles cleared are exactly those the table holds, at most one per entry |
| BindModule.BindAction | src/bind_module.js:42-44 | dispatches `watch` exactly for a watch binding and `once` otherwise, with the payload |
| BindModule.WatchAction | src/bind_module.js:45-54 | arms the timer with the period, commits the interval under `namespace + output` and dispatches `once` |
| BindModule.LocalState | src/bind_module.js:56 | the root state for an empty namespace, else the root field named by the namespace without its last character |
| BindModule.ParamName | src/bind_module.js:71 | specification function with no contract of its own; the key a parameter is computed under; PullValues states it |
| BindModule.PullFrom | src/bind_module.js:70-76 | specification function with no contract of its own; the loop of `pull_params_from`; PullFromObject and PullLoop state its promises |
| BindModule.PullParams | src/bind_module.js:67-86 | specification function with no contract of its own; `pull_params_from`; PullGate, PullValues, StrictIsInertWithoutParamMap and PullParamsFrom state its promises |
| BindModule.PullFromObject | src/bind_module.js:70-76 | over an object the loop never throws; it stops exactly when some field is unset, otherwise storing every value |
| BindModule.PullGate | src/bind_module.js:67-76 | `pull_params_from` gives `false` exactly when some declared parameter still equals its zero value |
| BindModule.PullValues | src/bind_module.js:67-85 | with nothing unset, the result maps each parameter name to its field's value; strict mode only adds the exception of a renamed parameter |
| BindModule.StrictIsInertWithoutParamMap | src/bind_module.js:78-83 | without a `param_map`, strict mode changes nothing |
| BindModule.PullLoop | src/bind_module.js:68-76 | the loop with its early return equals its specification |
| BindModule.FindRenamed | src/bind_module.js:79 | finds an endpoint parameter the renamed table lacks |
| BindModule.PullParamsFrom | src/bind_module.js:67-86 | the whole function equals its specification |
| BindModule.OnceAction | src/bind_module.js:55-63 | specification function with no contract of its own; the `once` action; OnceBlockedIff, MockOnceCommitsMockData, RestOnceCommitsData and CompiledLoadCommitsToUndefined state its promises |
| BindModule.OnceBlockedIff | src/bind_module.js:57-62 | `once` rejects with "Not Updated" exactly when some parameter is unset |
| BindModule.MockOnceCommitsMockData | src/bind_module.js:58-61 | the default mock commits the endpoint's `mock_data`, at root, to `namespace + output` |
| BindModule.RestOnceCommitsData | src/bind_module.js:58-61 | REST sends one request to the module's base URL and commits the truthy `data` of the response, or `null` |
| BindModule.CompiledLoadCommitsToUndefined | src/bound_store.js:90-97 | a compiled load action's `once` commits to `namespace + "undefined"`, and `watch` names its interval the same |
| Importers.AssumeNsVars | src/importers.js:59-61 | the root form reads at `""`; the namespaced form reads at `ns/` |
| Importers.Split | src/importers.js:54 | at least one piece, and no piece contains `/` |
| Importers.SplitJoins | src/importers.js:54 | joining the pieces with `/` gives the string back |
| Importers.SplitPlain | src/importers.js:54 | a string without `/` is one piece |
| Importers.SplitAt | src/importers.js:54 | splitting `a/b` gives the pieces of `a`, then those of `b` |
| Importers.NonEmpty | src/importers.js:55 | keeps only non-empty pieces, each taken from the input |
| Importers.NonEmptyAppend | src/importers.js:55 | the filter distributes over concatenation |
| Importers.SegmentsAt | src/importers.js:54-55 | the segments of `a/b` are those of `a`, then those of `b` |
| Importers.Descend | src/importers.js:56 | an empty path gives the state itself |
| Importers.DescendAppend | src/importers.js:56 | walking a concatenated path walks each part in turn, and stops at the first exception |
| Importers.ReduceNamespaceState | src/importers.js:53-57 | specification function with no contract of its own; `reduce_namespace_state`; NestedNamespace and ModuleNamespace state its promises |
| Importers.NestedNamespace | src/importers.js:53-57 | the state below `a/b` is the state below `b` inside the state below `a`; `""` is the root |
| Importers.ModuleNamespace | src/importers.js:53-61 | `f(ns, vars)` reads the root field `ns`; `f(vars)` reads the root state |
| Importers.Entries | src/importers.js:5-10 | one entry per variable, in order, each serving its variable |
| Importers.GeneratedServes | src/importers.js:3-11 | the generated object has a property exactly for each variable, serving it under the namespace |
| Importers.GeneratedInOrder | src/importers.js:5 | over distinct names, the properties come in the given order |
| Importers.MapBindings | src/importers.js:3-11 | specification function with no contract of its own; `mapBindings`; GeneratedServes, GeneratedInOrder and MapBindingsReads state its promises |
| Importers.MapBindingsWithLoading | src/importers.js:13-24 | specification function with no contract of its own; `mapBindingsWithLoading`; GeneratedServes and LoadingViewReadsFlag state its promises |
| Importers.SyncParams | src/importers.js:28-41 | specification function with no contract of its own; `syncParams`; GeneratedServes and SyncParamsCommit state its promises |
| Importers.MapTriggerActions | src/importers.js:43-51 | specification function with no contract of its own; `trigger`; GeneratedServes and TriggerActionsDispatch state its promises |
| Importers.MapBindingsReads | src/importers.js:3-11 | each `mapBindings` getter reads its variable in the namespace's state (also `mapParams`, src/importers.js:26) |
| Importers.ReadVar | src/importers.js:8 | the namespace walk's exception, or the variable read from the state below the namespace |
| Importers.WithLoadingField | src/importers.js:19-20 | an object gains `loading`; `undefined` and `null` become `{loading}` |
| Importers.ReadWithLoading | src/importers.js:17-22 | the wrapped variable with its loading flag, named by the naming scheme; unset naming throws |
| Importers.LoadingViewReadsFlag | src/importers.js:17-22 | the view's `loading` is the state's flag, and an object keeps its other fields |
| Importers.SyncSet | src/importers.js:36-38 | commits `ns + update(v)` with the value; unset naming throws |
| Importers.SyncParamsCommit | src/importers.js:28-41 | each synced property commits its own update mutation under the namespace |
| Importers.TriggerDispatch | src/importers.js:47-49 | dispatches `ns + trigger(v)` with no payload; unset naming throws |
| Importers.TriggerActionsDispatch | src/importers.js:43-51 | each trigger method dispatches its own trigger action under the namespace |
| Exports.MissingWarning | src/exports.js:24-26 | "Module k has bindings but is missing namespace", or the reverse |
| Exports.Classify | src/exports.js:19-29 | with both: compiled under its namespace, or the constructor's exception; with one: kept, with a warning; with neither: kept silently |
| Exports.ClassifyCompiles | src/exports.js:19-28 | a configuration that compiles, or is never compiled, gives its expected entry and warns exactly when half-declared |
| Exports.MapConfigs | src/exports.js:18-30 | specification function with no contract of its own; the `map` over the keys; ModulesWhenAllCompile and ModulesThrowAt state its promises |
| Exports.ModulesOf | src/exports.js:16-32 | specification function with no contract of its own; `Modules`; ModulesWhenAllCompile, ModulesThrowAt and PlainConfigPassesThrough state its promises |
| Exports.ModulesWhenAllCompile | src/exports.js:16-32 | when every store compiles: each configuration's expected entry, in order, and exactly the warnings for half-declared ones |
| Exports.ModulesThrowAt | src/exports.js:16-32 | the first rejected store makes `Modules` throw its error, after the earlier warnings |
| Exports.PlainConfigPassesThrough | src/exports.js:28 | a configuration with neither namespace nor bindings sits unchanged under its key |
| Exports.CompiledStoreNestsTwice | src/exports.js:22 | a compiled store sits under its namespace and is itself keyed by it |
| Exports.EmptyNamespaceIsMissing | src/exports.js:20-26 | `namespace: ""` with bindings is warned about as missing a namespace |

## Left out

- `src/adapters.js` and `src/constants.js` are not part of this model.
  - The matchers `match` and `lookup_mock` (imported by `src/exports.js`)
    and `get_default` (imported by `src/bound_store.js`) are not defined in
    `src/utils.js`.
  - `get_default` is therefore a parameter of the compiler, `getDefault`.
- Promises, `axios`, `setInterval`/`clearInterval` and `console.warn` are
  modelled by what they carry.
  - A REST response is a parameter, and so is the handle `setInterval`
    returns.
  - Cleared handles go in a ghost log.
  - Warnings become strings.
  - The strict-mode warning is never reached.
  - Timer ticks are left out.
- BindModule.OnceAction: the mock module's result (by default the
  endpoint's `mock_data`, `src/data_sources.js:66`) is taken to be a
  thenable, and its resolved value is what the model commits. A plain,
  non-thenable `mock_data` makes `.then` (`src/bind_module.js:58-60`)
  throw a TypeError in the source. That case is not modelled: the model
  commits the value instead.
- BindModule.MockOnceCommitsMockData: holds only for a thenable
  `mock_data`, for the reason above.
- Importers.WithLoadingField: for an object-valued variable,
  `new Object(x)` is `x` itself, so `value.loading = ...`
  (`src/importers.js:19-20`) writes `loading` into the store's own state
  object. The model returns a copy and leaves the state unchanged.
  - Later reads therefore do not see that field.
  - Neither does the `JSON.stringify` test of `pull_params_from`
    (`src/bind_module.js:73`), where an unset `{}` parameter that has been
    read this way stops blocking in the source.
- Importers.ReadWithLoading: shares that gap, since it is built on
  WithLoadingField.
- DataSources.WithHeader: an array-valued `headers` accepts
  `headers[key] = value` (`src/data_sources.js:29`) in the source. The
  model reports an error for it, since a modelled array carries no named
  properties.
- BindModule.ModuleState.UpdateHeader: shares that gap, since it is built
  on WithHeader.
- Js.Prop: inherited properties, such as `constructor`, `toString` or a
  string's methods, are read as `undefined`. The model has no function
  values.
- BindPlugin's installer calls `new BindModule()` with no argument
  (`src/bind_plugin.js:31`). As written, that constructor reads
  `data_source` of `undefined` and throws.
  - The model composes the module from the plugin configuration instead,
    as the constructor's reads of `plugin_config` expect.
  - `bind_url` (`plugin_config.url`, which the configuration never has) is
    a parameter.
- Vue and Vuex themselves are left out: component binding, `this.$store`,
  module registration, and how Vuex treats a commit of an unknown type.
- BoundStore.NewBoundStore: the error messages of the constructor's two
  `throw`s carry `JSON.stringify(store_config)`, which the model leaves
  out (`MissingNamespace`, `PluginNotConfigured`).
- The compiler's in-place changes are modelled as values. This covers
  `binding.output`, the deleted `bindings`/`namespace`, and the
  `Object.assign` into the given tables. Aliasing between a configuration
  and the store built from it is not captured.
- `BindPlugin.config.naming` is never set by the source. The helpers of
  `src/importers.js` take it as `Option<Naming>`, and `None` gives the
  TypeError of reading through `undefined`. The case of an unconstructed
  plugin, `BindPlugin.config` itself undefined, falls into the same error
  path.
- `mapParams` is the same function object as `mapBindings`, so it has no
  member of its own.
- `src/exports.js` re-exports `mapLoads` and `mapTriggers`, which
  `src/importers.js` does not define. It also re-exports the classes and
  the helpers it imports. Neither is modelled.
- Numbers are integers.
  - Floating point and `NaN` are left out.
  - So is the ordering JavaScript gives integer-like object keys.
  - `toUpperCase` is ASCII only.
- Constructors used as parameter types are the five built-ins. A
  prototype-chain property read (`"toString"` on `{}`) is `undefined` here.
- Importers.WithLoadingField: a primitive or array given `.loading` is
  represented as a box holding the value and the flag. Its other properties
  are not modelled.
- Exports.ModulesOf: iterates the configuration entries in order. It
  assumes the object's keys are distinct, as those of a JavaScript object
  are.
