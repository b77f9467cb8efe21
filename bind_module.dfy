/** The bind module the plugin registers: its state and mutation tables
    composed with the data source's, the watch and interval tables its
    mutations keep, the `bind`/`watch`/`once` actions, and the parameter gate
    that holds a fetch back while a parameter is still unset. */
module BindModule {
  import opened Dicts
  import opened Js
  import opened Utils
  import opened DataSources
  import opened Bindings
  import opened BindPlugin
  import opened BoundStore

  // ---------------------------------------------------------------------
  // Composition with the data source

  /** A mutation of the module: its four built-ins, or one of the source's. */
  datatype ModuleMutation =
    | WatchParamMutation
    | UpdateIntervalMutation
    | DeleteIntervalMutation
    | ClearIntervalsMutation
    | SourceMutation(name: string)

  function BuiltinState(bindUrl: Value): (d: Dict<Value>)
    ensures UniqueKeys(d)
  {
    [("bind_url", bindUrl), ("intervals", Obj([])), ("watch_params", Obj([]))]
  }

  const BuiltinMutations: Dict<ModuleMutation> :=
    [("watch_param", WatchParamMutation), ("update_interval", UpdateIntervalMutation),
     ("delete_interval", DeleteIntervalMutation), ("clear_intervals", ClearIntervalsMutation)]

  /** `{bind_url, intervals: {}, watch_params: {}, ...source.state}`. */
  function ComposeState(bindUrl: Value, sourceState: Dict<Value>): Dict<Value>
  {
    SetAll(BuiltinState(bindUrl), sourceState)
  }

  /** `{...source.mutations, watch_param, update_interval, delete_interval,
      clear_intervals}`. */
  function ComposeMutations(sourceMutations: Dict<ModuleMutation>): Dict<ModuleMutation>
  {
    SetAll(sourceMutations, BuiltinMutations)
  }

  /** The source's state is spread last: a source field wins over a built-in
      one of the same name, and every other built-in stays. */
  lemma SourceStateWins(bindUrl: Value, sourceState: Dict<Value>, k: string)
    requires UniqueKeys(sourceState)
    ensures Get(ComposeState(bindUrl, sourceState), k) ==
            if HasKey(sourceState, k) then Get(sourceState, k) else Get(BuiltinState(bindUrl), k)
  {
    GetAssign(BuiltinState(bindUrl), sourceState, k);
  }

  /** The built-in mutations are written last: they win over a source
      mutation of the same name, and every other source mutation stays. */
  lemma BuiltinMutationsWin(sourceMutations: Dict<ModuleMutation>, k: string)
    ensures Get(ComposeMutations(sourceMutations), k) ==
            if HasKey(BuiltinMutations, k) then Get(BuiltinMutations, k) else Get(sourceMutations, k)
  {
    GetAssign(sourceMutations, BuiltinMutations, k);
  }

  /** With a REST or mock source the five state fields sit side by side. */
  lemma RestModuleState(bindUrl: Value, s: DataSource)
    ensures ComposeState(bindUrl, StateFragment(s)) ==
            BuiltinState(bindUrl) + [("url", Str(s.state.url)), ("headers", s.state.headers)]
  {
    var b := BuiltinState(bindUrl);
    var f := StateFragment(s);
    assert forall i :: 0 <= i < |f| ==> !HasKey(b, f[i].0);
    SetAllFresh(b, f);
  }

  /** A store's watch registration is committed as `watch_params`, while the
      module's mutation is `watch_param`: unless the source brings a mutation
      of that name, the module has no mutation the registration names. */
  lemma RegistrationNamesNoMutation(ctx: Context, out: string, defs: Dict<Ctor>,
                                    sourceMutations: Dict<ModuleMutation>)
    requires !HasKey(sourceMutations, "watch_params")
    ensures Registration(ctx, out, defs).name == ctx.plugin.namespace + "/" + "watch_params"
    ensures !HasKey(ComposeMutations(sourceMutations), "watch_params")
    ensures HasKey(ComposeMutations(sourceMutations), "watch_param")
  {
    BuiltinMutationsWin(sourceMutations, "watch_params");
    BuiltinMutationsWin(sourceMutations, "watch_param");
    assert BuiltinMutations[0].0 == "watch_param";
    assert !HasKey(BuiltinMutations, "watch_params") by {
      assert forall i :: 0 <= i < |BuiltinMutations| ==> BuiltinMutations[i].0 != "watch_params";
    }
  }

  // ---------------------------------------------------------------------
  // The module's state and its mutations

  /** `state.watch_param[mutation] = [action]` on a key `watch_params` lacks:
      `state.watch_param` does not exist. */
  function MissingWatchList(mutation: string): Fault
  {
    TypeError("Cannot set properties of undefined (setting '" + mutation + "')")
  }

  /** `watch_param` as written: each listed mutation that already has a list
      gets the action appended; the first one without a list throws, after the
      earlier appends took effect. */
  function AppendWatch(wp: Dict<seq<string>>, action: string, mutations: seq<string>): (Dict<seq<string>>, Option<Fault>)
    decreases |mutations|
  {
    if mutations == [] then (wp, None)
    else
      match Get(wp, mutations[0])
      case Some(actions) => AppendWatch(Set(wp, mutations[0], actions + [action]), action, mutations[1..])
      case None => (wp, Some(MissingWatchList(mutations[0])))
  }

  function Repeat(x: string, n: nat): (r: seq<string>)
    ensures |r| == n
    ensures forall i :: 0 <= i < n ==> r[i] == x
  {
    seq(n, _ => x)
  }

  /** The handle a table entry holds, if any (`clearInterval` of `undefined` or
      `null` does nothing). */
  function HandleAt(d: Dict<Option<int>>, name: string): seq<int>
  {
    var entry := Get(d, name);
    if entry.Some? && entry.value.Some? then [entry.value.value] else []
  }

  /** Every handle the table holds, in table order. */
  function Handles(d: Dict<Option<int>>): seq<int>
    decreases |d|
  {
    if d == [] then []
    else Handles(d[..|d| - 1]) + (match d[|d| - 1].1 case Some(h) => [h] case None => [])
  }

  /** The bind module's state. `cancelled` records the handles passed to
      `clearInterval`. */
  class ModuleState {
    var bindUrl: Value
    var intervals: Dict<Option<int>>
    var watchParams: Dict<seq<string>>
    var url: string
    var headers: Value
    ghost var cancelled: seq<int>

    predicate Valid()
      reads this
    {
      UniqueKeys(intervals) && UniqueKeys(watchParams)
    }

    /** The state freshly composed from a REST or mock source. */
    constructor (bindUrl: Value, s: DataSource)
      ensures Valid()
      ensures this.bindUrl == bindUrl && intervals == [] && watchParams == []
      ensures url == s.state.url && headers == s.state.headers && cancelled == []
    {
      this.bindUrl := bindUrl;
      intervals, watchParams := [], [];
      url, headers := s.state.url, s.state.headers;
      cancelled := [];
    }

    /** The `watch_param` mutation. */
    method WatchParam(action: string, mutations: seq<string>) returns (failure: Option<Fault>)
      requires Valid()
      modifies this
      ensures Valid()
      ensures (watchParams, failure) == AppendWatch(old(watchParams), action, mutations)
      ensures intervals == old(intervals) && cancelled == old(cancelled)
      ensures bindUrl == old(bindUrl) && url == old(url) && headers == old(headers)
    {
      var i := 0;
      while i < |mutations|
        invariant 0 <= i <= |mutations|
        invariant Valid()
        invariant AppendWatch(old(watchParams), action, mutations) == AppendWatch(watchParams, action, mutations[i..])
        invariant intervals == old(intervals) && cancelled == old(cancelled)
        invariant bindUrl == old(bindUrl) && url == old(url) && headers == old(headers)
      {
        assert mutations[i..][1..] == mutations[i + 1..];
        var listed := Get(watchParams, mutations[i]);
        if listed.None? {
          return Some(MissingWatchList(mutations[i]));
        }
        SetKeepsUnique(watchParams, mutations[i], listed.value + [action]);
        watchParams := Set(watchParams, mutations[i], listed.value + [action]);
        i := i + 1;
      }
      failure := None;
    }

    /** The `update_interval` mutation: the old handle under `name` is
      cleared, then the new one stored. */
    method UpdateInterval(name: string, handle: int)
      requires Valid()
      modifies this
      ensures Valid()
      ensures cancelled == old(cancelled) + HandleAt(old(intervals), name)
      ensures intervals == Set(old(intervals), name, Some(handle))
      ensures watchParams == old(watchParams) && bindUrl == old(bindUrl) && url == old(url) && headers == old(headers)
    {
      cancelled := cancelled + HandleAt(intervals, name);
      SetKeepsUnique(intervals, name, Some(handle));
      intervals := Set(intervals, name, Some(handle));
    }

    /** The `delete_interval` mutation: the handle is cleared and the entry
      set to `null`; the key stays. */
    method DeleteInterval(name: string)
      requires Valid()
      modifies this
      ensures Valid()
      ensures cancelled == old(cancelled) + HandleAt(old(intervals), name)
      ensures intervals == Set(old(intervals), name, None)
      ensures watchParams == old(watchParams) && bindUrl == old(bindUrl) && url == old(url) && headers == old(headers)
    {
      cancelled := cancelled + HandleAt(intervals, name);
      SetKeepsUnique(intervals, name, None);
      intervals := Set(intervals, name, None);
    }

    /** The `clear_intervals` mutation: every stored handle cleared, in table
      order, then the table emptied. */
    method ClearIntervals()
      requires Valid()
      modifies this
      ensures Valid()
      ensures cancelled == old(cancelled) + Handles(old(intervals))
      ensures intervals == []
      ensures watchParams == old(watchParams) && bindUrl == old(bindUrl) && url == old(url) && headers == old(headers)
    {
      var i := 0;
      while i < |intervals|
        invariant 0 <= i <= |intervals|
        invariant intervals == old(intervals)
        invariant cancelled == old(cancelled) + Handles(intervals[..i])
        invariant watchParams == old(watchParams) && bindUrl == old(bindUrl) && url == old(url) && headers == old(headers)
      {
        assert intervals[..i + 1][..i] == intervals[..i];
        if intervals[i].1.Some? {
          cancelled := cancelled + [intervals[i].1.value];
        }
        i := i + 1;
      }
      assert intervals[..i] == intervals;
      intervals := [];
    }

    /** The source's `update_header` mutation. */
    method UpdateHeader(key: string, value: Value) returns (failure: Option<Fault>)
      modifies this
      ensures match WithHeader(old(headers), key, value)
              case Ok(h) => headers == h && failure.None?
              case Err(f) => headers == old(headers) && failure == Some(f)
      ensures intervals == old(intervals) && watchParams == old(watchParams) && cancelled == old(cancelled)
      ensures bindUrl == old(bindUrl) && url == old(url)
    {
      var r := WithHeader(headers, key, value);
      if r.Ok? {
        headers := r.value;
        failure := None;
      } else {
        failure := Some(r.fault);
      }
    }

    /** The source's `update_url` mutation. */
    method UpdateUrl(newUrl: string)
      modifies this
      ensures url == newUrl
      ensures intervals == old(intervals) && watchParams == old(watchParams) && cancelled == old(cancelled)
      ensures bindUrl == old(bindUrl) && headers == old(headers)
    {
      url := newUrl;
    }

    function SourceView(): SourceState
      reads this
    {
      SourceState(url, headers)
    }
  }

  lemma {:induction false} AppendWatchKeepsKeys(wp: Dict<seq<string>>, action: string, mutations: seq<string>)
    ensures Keys(AppendWatch(wp, action, mutations).0) == Keys(wp)
    decreases |mutations|
  {
    if mutations != [] && Get(wp, mutations[0]).Some? {
      var m := mutations[0];
      AppendWatchKeepsKeys(Set(wp, m, Get(wp, m).value + [action]), action, mutations[1..]);
      KeysSet(wp, m, Get(wp, m).value + [action]);
    }
  }

  /** `watch_param` succeeds exactly when every listed mutation already has a
      watch list. */
  lemma {:induction false} WatchParamOkIff(wp: Dict<seq<string>>, action: string, mutations: seq<string>)
    ensures AppendWatch(wp, action, mutations).1.None? <==>
            forall j :: 0 <= j < |mutations| ==> HasKey(wp, mutations[j])
    decreases |mutations|
  {
    if mutations != [] {
      var m := mutations[0];
      if Get(wp, m).Some? {
        var wp' := Set(wp, m, Get(wp, m).value + [action]);
        WatchParamOkIff(wp', action, mutations[1..]);
        forall k { HasKeySet(wp, m, Get(wp, m).value + [action], k); }
        assert forall j :: 1 <= j < |mutations| ==> mutations[1..][j - 1] == mutations[j];
      }
    }
  }

  lemma MultisetHead(ms: seq<string>, k: string)
    requires ms != []
    ensures multiset(ms)[k] == multiset(ms[1..])[k] + (if ms[0] == k then 1 else 0)
  {
    assert ms == [ms[0]] + ms[1..];
  }

  lemma RepeatOnce(l: seq<string>, x: string, c: nat)
    ensures l + [x] + Repeat(x, c) == l + Repeat(x, c + 1)
  {
  }

  /** On success, each listed mutation's list gains the action once per
      listing, at the end; every other list and the set of keys are
      unchanged. */
  lemma {:induction false} WatchParamAppends(wp: Dict<seq<string>>, action: string, mutations: seq<string>, k: string)
    requires forall j :: 0 <= j < |mutations| ==> HasKey(wp, mutations[j])
    ensures var r := AppendWatch(wp, action, mutations);
            r.1.None? &&
            Get(r.0, k) == match Get(wp, k)
                           case Some(l) => Some(l + Repeat(action, multiset(mutations)[k]))
                           case None => None
    decreases |mutations|
  {
    WatchParamOkIff(wp, action, mutations);
    if mutations == [] {
      match Get(wp, k)
      case Some(l) => assert l + Repeat(action, 0) == l;
      case None =>
    } else {
      var m := mutations[0];
      var l0 := Get(wp, m).value;
      var wp' := Set(wp, m, l0 + [action]);
      assert forall j :: 0 <= j < |mutations[1..]| ==> mutations[1..][j] == mutations[j + 1];
      forall j | 0 <= j < |mutations[1..]| ensures HasKey(wp', mutations[1..][j]) {
        HasKeySet(wp, m, l0 + [action], mutations[1..][j]);
      }
      WatchParamAppends(wp', action, mutations[1..], k);
      GetSet(wp, m, l0 + [action], k);
      MultisetHead(mutations, k);
      if k == m {
        RepeatOnce(l0, action, multiset(mutations[1..])[k]);
      }
    }
  }

  /** After a successful registration the subscriber, on each listed
      mutation, dispatches the registered action last. */
  lemma RegisteredActionFiresLast(wp: Dict<seq<string>>, action: string, mutations: seq<string>, i: nat)
    requires forall j :: 0 <= j < |mutations| ==> HasKey(wp, mutations[j])
    requires i < |mutations|
    ensures var l := Get(AppendWatch(wp, action, mutations).0, mutations[i]);
            l.Some? && |l.value| > 0 && l.value[|l.value| - 1] == action
  {
    var k := mutations[i];
    WatchParamAppends(wp, action, mutations, k);
    assert k in multiset(mutations);
  }

  /** A mutation without a watch list is where `watch_param` throws; a list
      registered earlier in the same call has already been extended. */
  lemma WatchParamOnNewKeyFails()
    ensures AppendWatch([("update_a", ["x"])], "load_c", ["update_a", "update_b"]) ==
            ([("update_a", ["x", "load_c"])], Some(MissingWatchList("update_b")))
  {
    var wp0: Dict<seq<string>> := [("update_a", ["x"])];
    var wp1: Dict<seq<string>> := [("update_a", ["x", "load_c"])];
    var ms := ["update_a", "update_b"];
    assert Get(wp0, "update_a") == Some(["x"]);
    assert ["x"] + ["load_c"] == ["x", "load_c"];
    assert Set(wp0, "update_a", ["x", "load_c"]) == [("update_a", ["x", "load_c"])] + wp0[1..];
    assert wp0[1..] == [];
    assert Set(wp0, "update_a", ["x"] + ["load_c"]) == wp1;
    assert ms[1..] == ["update_b"];
    assert AppendWatch(wp0, "load_c", ms) == AppendWatch(wp1, "load_c", ["update_b"]);
    assert "update_a" != "update_b" by { assert "update_a"[7] != "update_b"[7]; }
    assert Get(wp1, "update_b") == None;
  }

  /** `clear_intervals` clears exactly the handles the table holds. */
  lemma {:induction false} HandlesAreStored(d: Dict<Option<int>>, h: int)
    ensures h in Handles(d) <==> exists i :: 0 <= i < |d| && d[i].1 == Some(h)
    ensures |Handles(d)| <= |d|
    decreases |d|
  {
    if d != [] {
      var front := d[..|d| - 1];
      HandlesAreStored(front, h);
      assert forall i :: 0 <= i < |front| ==> front[i] == d[i];
      if exists i :: 0 <= i < |d| && d[i].1 == Some(h) {
        var i :| 0 <= i < |d| && d[i].1 == Some(h);
        if i < |front| { assert front[i].1 == Some(h); }
      }
    }
  }

  // ---------------------------------------------------------------------
  // The actions

  /** The `bind` action: `watch` for a watch binding, `once` for any other. */
  function BindAction(p: BindPayload): (e: Event)
    ensures e.Dispatch? && e.payload == BindRequest(p) && !e.root
    ensures e.name == "watch" <==> p.binding.mode == Watch
    ensures e.name != "watch" ==> e.name == "once"
  {
    Dispatch(if p.binding.mode == Watch then "watch" else "once", BindRequest(p), false)
  }

  /** The interval's name: the payload's namespace and `output`. */
  function IntervalName(p: BindPayload): string
  {
    p.namespace + Text(p.output)
  }

  /** The `watch` action, with `handle` the value `setInterval` returns: a
      timer that dispatches `once` every `period`, an `update_interval` commit
      storing it, then one `once` dispatch. */
  function WatchAction(p: BindPayload, handle: int): (es: seq<Event>)
    ensures |es| == 3
    ensures es[0] == Arm(handle, p.binding.period, p)
    ensures es[1] == Commit("update_interval", IntervalEntry(IntervalName(p), handle), false)
    ensures es[2] == Dispatch("once", BindRequest(p), false)
  {
    [Arm(handle, p.binding.period, p),
     Commit("update_interval", IntervalEntry(IntervalName(p), handle), false),
     Dispatch("once", BindRequest(p), false)]
  }

  /** The state `once` reads parameters from: the root state under the
      namespace without its last character, or the root state itself for an
      empty namespace. */
  function LocalState(root: Dict<Value>, ns: string): (v: Value)
    ensures ns == "" ==> v == Obj(root)
    ensures ns != "" ==> v == GetOr(root, ns[..|ns| - 1], Undefined)
  {
    if ns != "" then GetOr(root, ns[..|ns| - 1], Undefined) else Obj(root)
  }

  /** `String(c)` for a built-in constructor. */
  function CtorSource(c: Ctor): string
  {
    var name := match c
      case Number => "Number" case String => "String" case Array => "Array"
      case Object => "Object" case Boolean => "Boolean";
    "function " + name + "() { [native code] }"
  }

  /** The key a pulled value is stored under: `param_map[state_name]`
      (`"undefined"` when the map lacks it), or, with no map, the declared
      type itself as a property key. */
  function ParamName(paramMap: Option<Dict<string>>, stateName: string, c: Ctor): string
  {
    match paramMap
    case Some(pm) => Text(Get(pm, stateName))
    case None => CtorSource(c)
  }

  /** The loop of `pull_params_from` from the given entry on, with the
      parameters pulled so far: `None` as soon as a value is unset. */
  function PullFrom(local: Value, paramMap: Option<Dict<string>>, defs: Dict<Ctor>, acc: Dict<Value>): Result<Option<Dict<Value>>>
    decreases |defs|
  {
    if defs == [] then Ok(Some(acc))
    else
      match Prop(local, defs[0].0)
      case Err(f) => Err(f)
      case Ok(v) =>
        var acc' := Set(acc, ParamName(paramMap, defs[0].0, defs[0].1), v);
        if IsUnset(v, defs[0].1) then Ok(None) else PullFrom(local, paramMap, defs[1..], acc')
  }

  /** The strict check calls `x instanceof param_defs[p]` for each endpoint
      parameter `p`; a parameter renamed away has no entry there, and
      `instanceof undefined` throws. Otherwise the check is always false. */
  const InstanceofFault: Fault := TypeError("Right-hand side of 'instanceof' is not callable")

  predicate HasRenamedParam(params: Dict<Ctor>, defs: Dict<Ctor>)
  {
    exists i :: 0 <= i < |params| && !HasKey(defs, params[i].0)
  }

  /** `pull_params_from(local_state, param_map, params, output, strict)`:
      `Ok(None)` is its `false`. A missing parameter table throws. */
  function PullParams(local: Value, paramMap: Option<Dict<string>>, params: Option<Dict<Ctor>>, strict: bool): Result<Option<Dict<Value>>>
  {
    match params
    case None => Err(NotAnObject)
    case Some(t) =>
      var defs := MapEndpointTypes(paramMap, t);
      match PullFrom(local, paramMap, defs, [])
      case Ok(Some(computed)) => if strict && HasRenamedParam(t, defs) then Err(InstanceofFault) else Ok(Some(computed))
      case r => r
  }

  /** The pairs the loop stores when nothing blocks it. */
  function Pulled(fields: Dict<Value>, paramMap: Option<Dict<string>>, defs: Dict<Ctor>): (ps: Dict<Value>)
    ensures |ps| == |defs|
    ensures forall i :: 0 <= i < |defs| ==>
              ps[i] == (ParamName(paramMap, defs[i].0, defs[i].1), GetOr(fields, defs[i].0, Undefined))
  {
    seq(|defs|, i requires 0 <= i < |defs| => (ParamName(paramMap, defs[i].0, defs[i].1), GetOr(fields, defs[i].0, Undefined)))
  }

  predicate SomeUnset(fields: Dict<Value>, defs: Dict<Ctor>)
  {
    exists i :: 0 <= i < |defs| && IsUnset(GetOr(fields, defs[i].0, Undefined), defs[i].1)
  }

  /** Over an object, the loop never throws; it blocks exactly when some
      declared parameter's value is unset, and otherwise stores every pulled
      value under its parameter name, in order. */
  lemma {:induction false} PullFromObject(fields: Dict<Value>, paramMap: Option<Dict<string>>, defs: Dict<Ctor>, acc: Dict<Value>)
    ensures var r := PullFrom(Obj(fields), paramMap, defs, acc);
            && r.Ok?
            && (r.value.None? <==> SomeUnset(fields, defs))
            && (r.value.Some? ==> r.value.value == SetAll(acc, Pulled(fields, paramMap, defs)))
    decreases |defs|
  {
    if defs != [] {
      var v := GetOr(fields, defs[0].0, Undefined);
      var acc' := Set(acc, ParamName(paramMap, defs[0].0, defs[0].1), v);
      PullFromObject(fields, paramMap, defs[1..], acc');
      assert forall i :: 1 <= i < |defs| ==> defs[1..][i - 1] == defs[i];
      assert SomeUnset(fields, defs) <==> IsUnset(v, defs[0].1) || SomeUnset(fields, defs[1..]) by {
        if SomeUnset(fields, defs) {
          var i :| 0 <= i < |defs| && IsUnset(GetOr(fields, defs[i].0, Undefined), defs[i].1);
          if i > 0 { assert IsUnset(GetOr(fields, defs[1..][i - 1].0, Undefined), defs[1..][i - 1].1); }
        }
      }
      var ps := Pulled(fields, paramMap, defs);
      assert forall i :: 0 <= i < |defs[1..]| ==> defs[1..][i] == defs[i + 1];
      assert ps[1..] == Pulled(fields, paramMap, defs[1..]);
      assert ps[0] == (ParamName(paramMap, defs[0].0, defs[0].1), v);
    }
  }

  /** The gate: over an object, `pull_params_from` gives `false` exactly when
      some declared parameter still JSON-equals its type's zero value, strict
      or not. */
  lemma PullGate(fields: Dict<Value>, paramMap: Option<Dict<string>>, t: Dict<Ctor>, strict: bool)
    ensures PullParams(Obj(fields), paramMap, Some(t), strict) == Ok(None) <==>
            SomeUnset(fields, MapEndpointTypes(paramMap, t))
  {
    PullFromObject(fields, paramMap, MapEndpointTypes(paramMap, t), []);
  }

  /** When nothing is unset, the result maps each parameter name to the
      value of its state field; strict mode adds nothing but the exception of
      a renamed parameter. */
  lemma PullValues(fields: Dict<Value>, paramMap: Option<Dict<string>>, t: Dict<Ctor>, strict: bool)
    requires !SomeUnset(fields, MapEndpointTypes(paramMap, t))
    ensures var defs := MapEndpointTypes(paramMap, t);
            PullParams(Obj(fields), paramMap, Some(t), strict) ==
            if strict && HasRenamedParam(t, defs) then Err(InstanceofFault)
            else Ok(Some(FromEntries(Pulled(fields, paramMap, defs))))
  {
    PullFromObject(fields, paramMap, MapEndpointTypes(paramMap, t), []);
  }

  /** Without a `param_map` nothing is renamed, so strict mode never changes
      the result. */
  lemma StrictIsInertWithoutParamMap(local: Value, t: Dict<Ctor>)
    ensures PullParams(local, None, Some(t), true) == PullParams(local, None, Some(t), false)
  {
    assert !HasRenamedParam(t, t) by {
      forall i | 0 <= i < |t| ensures HasKey(t, t[i].0) { }
    }
  }

  /** The loop of `pull_params_from`, with its early return. */
  method PullLoop(local: Value, paramMap: Option<Dict<string>>, defs: Dict<Ctor>) returns (r: Result<Option<Dict<Value>>>)
    ensures r == PullFrom(local, paramMap, defs, [])
  {
    var computed: Dict<Value> := [];
    var i := 0;
    while i < |defs|
      invariant 0 <= i <= |defs|
      invariant PullFrom(local, paramMap, defs, []) == PullFrom(local, paramMap, defs[i..], computed)
    {
      assert defs[i..][1..] == defs[i + 1..];
      var stateName := defs[i].0;
      var read := Prop(local, stateName);
      if read.Err? {
        return Err(read.fault);
      }
      computed := Set(computed, ParamName(paramMap, stateName, defs[i].1), read.value);
      if IsUnset(read.value, defs[i].1) {
        return Ok(None);
      }
      i := i + 1;
    }
    r := Ok(Some(computed));
  }

  /** The strict check's `find` over the endpoint's parameters. */
  method FindRenamed(params: Dict<Ctor>, defs: Dict<Ctor>) returns (found: bool)
    ensures found == HasRenamedParam(params, defs)
  {
    var j := 0;
    while j < |params|
      invariant 0 <= j <= |params|
      invariant forall k :: 0 <= k < j ==> HasKey(defs, params[k].0)
    {
      if !HasKey(defs, params[j].0) {
        return true;
      }
      j := j + 1;
    }
    found := false;
  }

  /** `pull_params_from` as the module runs it. */
  method PullParamsFrom(local: Value, paramMap: Option<Dict<string>>, params: Option<Dict<Ctor>>, strict: bool)
    returns (r: Result<Option<Dict<Value>>>)
    ensures r == PullParams(local, paramMap, params, strict)
  {
    if params.None? {
      return Err(NotAnObject);
    }
    var defs := MapEndpointTypes(paramMap, params.value);
    r := PullLoop(local, paramMap, defs);
    if r.Ok? && r.value.Some? && strict {
      var bad := FindRenamed(params.value, defs);
      if bad {
        r := Err(InstanceofFault);
      }
    }
  }

  /** How `once` ends: with an exception, with the rejection
      `{message: "Not Updated"}`, or with the request sent and the commit of
      the unwrapped response. */
  datatype OnceResult =
    | Errored(fault: Fault)
    | NotUpdated
    | Updated(request: Request, commit: Event)

  /** The `once` action. `root` is the store's root state, `bindState` the
      module's own `{url, headers}`, and `response` what the network returns
      for a REST request. */
  function OnceAction(p: BindPayload, root: Dict<Value>, bindState: SourceState, plugin: PluginConfig, response: Value): OnceResult
  {
    var local := LocalState(root, p.namespace);
    match PullParams(local, p.binding.paramMap, p.endpoint.params, plugin.strict)
    case Err(f) => Errored(f)
    case Ok(None) => NotUpdated
    case Ok(Some(computed)) =>
      var request := Args(plugin.dataSource, bindState, computed, p.endpoint)[0];
      match Assign(plugin.dataSource, Module(plugin.dataSource, request, response))
      case Err(f) => Errored(f)
      case Ok(v) => Updated(request, Commit(p.namespace + Text(p.output), Data(v), true))
  }

  /** A blocked `once` never commits: over an object-valued local state it is
      `NotUpdated` exactly when some parameter is unset. */
  lemma OnceBlockedIff(p: BindPayload, root: Dict<Value>, bindState: SourceState, plugin: PluginConfig, response: Value)
    requires LocalState(root, p.namespace).Obj? && p.endpoint.params.Some?
    ensures OnceAction(p, root, bindState, plugin, response) == NotUpdated <==>
            SomeUnset(LocalState(root, p.namespace).fields, MapEndpointTypes(p.binding.paramMap, p.endpoint.params.value))
  {
    PullGate(LocalState(root, p.namespace).fields, p.binding.paramMap, p.endpoint.params.value, plugin.strict);
  }

  /** A mock source with the default module commits the endpoint's
      `mock_data`, at root, to `namespace + output`. */
  lemma MockOnceCommitsMockData(p: BindPayload, root: Dict<Value>, bindState: SourceState, plugin: PluginConfig, response: Value)
    requires plugin.dataSource.Mock? && plugin.dataSource.mockModule == MockData
    requires PullParams(LocalState(root, p.namespace), p.binding.paramMap, p.endpoint.params, plugin.strict).Ok?
    requires PullParams(LocalState(root, p.namespace), p.binding.paramMap, p.endpoint.params, plugin.strict).value.Some?
    ensures OnceAction(p, root, bindState, plugin, response).Updated?
    ensures OnceAction(p, root, bindState, plugin, response).commit == Commit(p.namespace + Text(p.output), Data(p.endpoint.mockData), true)
  {
  }

  /** A REST source sends one request and commits the response's truthy
      `data`, or `null`. */
  lemma RestOnceCommitsData(p: BindPayload, root: Dict<Value>, bindState: SourceState, plugin: PluginConfig, fields: Dict<Value>)
    requires plugin.dataSource.Rest?
    requires PullParams(LocalState(root, p.namespace), p.binding.paramMap, p.endpoint.params, plugin.strict).Ok?
    requires PullParams(LocalState(root, p.namespace), p.binding.paramMap, p.endpoint.params, plugin.strict).value.Some?
    ensures var r := OnceAction(p, root, bindState, plugin, Obj(fields));
            var data := GetOr(fields, "data", Undefined);
            && r.Updated? && r.request.RestCall? && r.request.baseURL == bindState.url
            && r.commit == Commit(p.namespace + Text(p.output), Data(if Truthy(data) then data else Null), true)
  {
  }

  /** A load action the compiler generated sends a payload without `output`,
      so a successful `once` commits to the store namespace followed by
      `undefined`, and a `watch` names its interval the same way. */
  lemma CompiledLoadCommitsToUndefined(ctx: Context, bindings: Dict<Binding>, j: nat,
                                       root: Dict<Value>, bindState: SourceState, response: Value, handle: int)
    requires Compile(ctx, bindings).Ok?
    requires j < |Compile(ctx, bindings).value.actions|
    requires Compile(ctx, bindings).value.actions[j].0 != "start_bind"
    ensures var a := Compile(ctx, bindings).value.actions[j].1;
            && a.LoadAction? && a.target == ctx.plugin.namespace + "/bind"
            && WatchAction(a.payload, handle)[1] == Commit("update_interval", IntervalEntry(ctx.namespace + "undefined", handle), false)
            && var r := OnceAction(a.payload, root, bindState, ctx.plugin, response);
               r.Updated? ==> r.commit.name == ctx.namespace + "undefined"
  {
    CompiledActions(ctx, bindings);
  }
}
