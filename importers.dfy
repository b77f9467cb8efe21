/** The component-side helpers: each builds an object with one computed
    property or method per variable name, reading the store's state below a
    namespace path, committing an update mutation or dispatching a trigger
    action by the plugin's naming scheme. */
module Importers {
  import opened Dicts
  import opened Js
  import opened Names = Naming
  import opened Bindings

  /** The two call forms: `f(vars)` binds root state, `f(ns, vars)` a module. */
  datatype ImportArgs =
    | RootVars(vars: seq<string>)
    | NamespacedVars(ns: string, vars: seq<string>)

  /** `assume_ns_vars`: the namespace prefix (with its trailing `/`) and the
      variable names. */
  function AssumeNsVars(a: ImportArgs): (r: (string, seq<string>))
    ensures a.RootVars? ==> r == ("", a.vars)
    ensures a.NamespacedVars? ==> r == (a.ns + "/", a.vars)
  {
    match a
    case RootVars(vars) => ("", vars)
    case NamespacedVars(ns, vars) => (ns + "/", vars)
  }

  /** `s.split('/')`: the pieces between separators, `[""]` for the empty
      string. */
  function Split(s: string): (parts: seq<string>)
    ensures |parts| >= 1
    ensures forall i :: 0 <= i < |parts| ==> '/' !in parts[i]
    decreases |s|
  {
    if s == [] then [""]
    else
      var rest := Split(s[1..]);
      if s[0] == '/' then [""] + rest
      else
        assert forall i :: 1 <= i < |rest| ==> rest[1..][i - 1] == rest[i];
        [[s[0]] + rest[0]] + rest[1..]
  }

  /** `parts.join('/')`. */
  function JoinParts(parts: seq<string>): string
    requires |parts| >= 1
  {
    if |parts| == 1 then parts[0] else parts[0] + "/" + JoinParts(parts[1..])
  }

  /** `.filter((s) => s !== "")`. */
  function NonEmpty(parts: seq<string>): (r: seq<string>)
    ensures forall i :: 0 <= i < |r| ==> r[i] != "" && r[i] in parts
  {
    if parts == [] then []
    else if parts[0] == "" then NonEmpty(parts[1..])
    else [parts[0]] + NonEmpty(parts[1..])
  }

  /** The property names a namespace walks down. */
  function Segments(ns: string): seq<string>
  {
    NonEmpty(Split(ns))
  }

  /** `.reduce((state, n) => state[n], state)`: a read of `undefined` or `null`
      on the way throws. */
  function Descend(state: Value, path: seq<string>): (r: Result<Value>)
    ensures path == [] ==> r == Ok(state)
    decreases |path|
  {
    if path == [] then Ok(state)
    else
      match Prop(state, path[0])
      case Err(f) => Err(f)
      case Ok(next) => Descend(next, path[1..])
  }

  /** `reduce_namespace_state(ns, state)`. */
  function ReduceNamespaceState(ns: string, state: Value): Result<Value>
  {
    Descend(state, Segments(ns))
  }

  /** One computed property or method of a generated object, by the variable
      it serves and the namespace prefix it was built with. */
  datatype Accessor =
    | StateGetter(ns: string, name: string)         // `mapBindings`, `mapParams`
    | LoadingGetter(ns: string, name: string)       // `mapBindingsWithLoading`
    | SyncedParam(ns: string, name: string)         // `syncParams`: `{get, set}`
    | TriggerMethod(ns: string, name: string)       // `mapTriggerActions`

  /** `vars.map((v) => [v, make(v)])`. */
  function Entries(vars: seq<string>, make: string -> Accessor): (r: seq<(string, Accessor)>)
    ensures |r| == |vars|
    ensures forall i :: 0 <= i < |vars| ==> r[i] == (vars[i], make(vars[i]))
  {
    if vars == [] then [] else [(vars[0], make(vars[0]))] + Entries(vars[1..], make)
  }

  /** `Object.fromEntries(vars.map(...))` after `assume_ns_vars`. */
  function Generated(a: ImportArgs, make: (string, string) -> Accessor): Dict<Accessor>
  {
    var (ns, vars) := AssumeNsVars(a);
    FromEntries(Entries(vars, v => make(ns, v)))
  }

  function MapBindings(a: ImportArgs): Dict<Accessor>
  {
    Generated(a, (ns, v) => StateGetter(ns, v))
  }

  function MapBindingsWithLoading(a: ImportArgs): Dict<Accessor>
  {
    Generated(a, (ns, v) => LoadingGetter(ns, v))
  }

  function SyncParams(a: ImportArgs): Dict<Accessor>
  {
    Generated(a, (ns, v) => SyncedParam(ns, v))
  }

  function MapTriggerActions(a: ImportArgs): Dict<Accessor>
  {
    Generated(a, (ns, v) => TriggerMethod(ns, v))
  }

  /** The getter of `mapBindings` and of `syncParams`:
      `reduce_namespace_state(ns, this.$store.state)[v]`. */
  function ReadVar(ns: string, name: string, state: Value): (r: Result<Value>)
    ensures ReduceNamespaceState(ns, state).Err? ==> r == ReduceNamespaceState(ns, state)
    ensures ReduceNamespaceState(ns, state).Ok? ==> r == Prop(ReduceNamespaceState(ns, state).value, name)
  {
    match ReduceNamespaceState(ns, state)
    case Err(f) => Err(f)
    case Ok(local) => Prop(local, name)
  }

  /** `new Object(x)` with `.loading` assigned: an object gains (or replaces)
      the field `loading`; `undefined` and `null` give a fresh object holding
      only it; any other value is boxed, and the box carries it. */
  datatype LoadingView =
    | Plain(view: Value)
    | Boxed(primitive: Value, loading: Value)

  function WithLoadingField(x: Value, loading: Value): (r: LoadingView)
    ensures x.Obj? ==> r == Plain(Obj(Set(x.fields, "loading", loading)))
    ensures (x.Undefined? || x.Null?) ==> r == Plain(Obj([("loading", loading)]))
  {
    match x
    case Obj(fields) => Plain(Obj(Set(fields, "loading", loading)))
    case Undefined => Plain(Obj([("loading", loading)]))
    case Null => Plain(Obj([("loading", loading)]))
    case _ => Boxed(x, loading)
  }

  /** The field `loading` a component reads back from the view. */
  function LoadingOf(view: LoadingView): Value
  {
    match view
    case Plain(o) => if o.Obj? then GetOr(o.fields, "loading", Undefined) else Undefined
    case Boxed(_, l) => l
  }

  /** The fault of reading a naming function off an absent naming scheme. */
  function NoNaming(what: string): Fault
  {
    TypeError("Cannot read properties of undefined (reading '" + what + "')")
  }

  /** The getter of `mapBindingsWithLoading`: the variable, wrapped, with the
      state's loading flag for it named by the plugin's naming scheme.
      `naming` is `BindPlugin.config.naming`, absent when nobody set it. */
  function ReadWithLoading(ns: string, name: string, state: Value, naming: Option<Naming>): (r: Result<LoadingView>)
    ensures ReadVar(ns, name, state).Err? ==> r.Err? && r.fault == ReadVar(ns, name, state).fault
    ensures ReadVar(ns, name, state).Ok? && naming.None? ==> r == Err(NoNaming("loading"))
    ensures ReadVar(ns, name, state).Ok? && naming.Some? ==>
              var local := ReduceNamespaceState(ns, state).value;
              r == Ok(WithLoadingField(ReadVar(ns, name, state).value,
                                       Prop(local, Loading(naming.value, name)).value))
  {
    match ReduceNamespaceState(ns, state)
    case Err(f) => Err(f)
    case Ok(local) =>
      match Prop(local, name)
      case Err(f) => Err(f)
      case Ok(x) =>
        match naming
        case None => Err(NoNaming("loading"))
        case Some(n) => Ok(WithLoadingField(x, Prop(local, Loading(n, name)).value))
  }

  /** The setter of `syncParams`: commit the update mutation under the
      namespace prefix. */
  function SyncSet(ns: string, name: string, naming: Option<Naming>, value: Value): (r: Result<Event>)
    ensures naming.None? <==> r.Err?
    ensures naming.Some? ==> r == Ok(Commit(ns + Update(naming.value, name), Data(value), false))
  {
    match naming
    case None => Err(NoNaming("update"))
    case Some(n) => Ok(Commit(ns + Update(n, name), Data(value), false))
  }

  /** The method of `mapTriggerActions`: dispatch the trigger action under the
      namespace prefix, with no payload. */
  function TriggerDispatch(ns: string, name: string, naming: Option<Naming>): (r: Result<Event>)
    ensures naming.None? <==> r.Err?
    ensures naming.Some? ==> r == Ok(Dispatch(ns + Names.Trigger(naming.value, name), NoPayload, false))
  {
    match naming
    case None => Err(NoNaming("trigger"))
    case Some(n) => Ok(Dispatch(ns + Names.Trigger(n, name), NoPayload, false))
  }

  /** Joining the pieces of a split gives the string back. */
  lemma {:induction false} SplitJoins(s: string)
    ensures JoinParts(Split(s)) == s
    decreases |s|
  {
    if s != [] {
      SplitJoins(s[1..]);
      var rest := Split(s[1..]);
      if s[0] == '/' {
        assert Split(s) == [""] + rest;
        assert Split(s)[1..] == rest;
        assert s == [s[0]] + s[1..];
      } else {
        var parts := Split(s);
        assert parts == [[s[0]] + rest[0]] + rest[1..];
        if |rest| == 1 {
          assert JoinParts(parts) == [s[0]] + rest[0];
        } else {
          assert parts[1..] == rest[1..];
          assert JoinParts(rest) == rest[0] + "/" + JoinParts(rest[1..]);
        }
        assert s == [s[0]] + s[1..];
      }
    }
  }

  /** A string without a separator is one piece. */
  lemma {:induction false} SplitPlain(s: string)
    requires '/' !in s
    ensures Split(s) == [s]
    decreases |s|
  {
    if s != [] {
      assert forall i :: 0 <= i < |s[1..]| ==> s[1..][i] == s[i + 1];
      SplitPlain(s[1..]);
      assert s[0] != '/' by { assert s[0] in s; }
      assert s == [s[0]] + s[1..];
    }
  }

  /** Splitting at a separator splits each side. */
  lemma {:induction false} SplitAt(a: string, b: string)
    ensures Split(a + "/" + b) == Split(a) + Split(b)
    decreases |a|
  {
    if a == [] {
      assert a + "/" + b == ['/'] + b;
      assert (['/'] + b)[1..] == b;
    } else {
      var s := a + "/" + b;
      assert s[0] == a[0];
      assert s[1..] == a[1..] + "/" + b;
      SplitAt(a[1..], b);
    }
  }

  lemma {:induction false} NonEmptyAppend(p: seq<string>, q: seq<string>)
    ensures NonEmpty(p + q) == NonEmpty(p) + NonEmpty(q)
    decreases |p|
  {
    if p == [] {
      assert p + q == q;
    } else {
      assert (p + q)[0] == p[0];
      assert (p + q)[1..] == p[1..] + q;
      NonEmptyAppend(p[1..], q);
    }
  }

  /** The segments of `a/b` are those of `a` followed by those of `b`. */
  lemma SegmentsAt(a: string, b: string)
    ensures Segments(a + "/" + b) == Segments(a) + Segments(b)
  {
    SplitAt(a, b);
    NonEmptyAppend(Split(a), Split(b));
  }

  /** Walking down a concatenated path walks down each part in turn. */
  lemma {:induction false} DescendAppend(state: Value, p: seq<string>, q: seq<string>)
    ensures Descend(state, p + q) ==
            match Descend(state, p)
            case Err(f) => Err(f)
            case Ok(mid) => Descend(mid, q)
    decreases |p|
  {
    if p != [] {
      assert (p + q)[0] == p[0];
      assert (p + q)[1..] == p[1..] + q;
      match Prop(state, p[0])
      case Err(_) =>
      case Ok(next) => DescendAppend(next, p[1..], q);
    } else {
      assert p + q == q;
    }
  }

  /** The state below `a/b` is the state below `b` inside the state below `a`;
      the empty namespace is the root state itself. */
  lemma NestedNamespace(a: string, b: string, state: Value)
    ensures ReduceNamespaceState("", state) == Ok(state)
    ensures ReduceNamespaceState(a + "/" + b, state) ==
            match ReduceNamespaceState(a, state)
            case Err(f) => Err(f)
            case Ok(mid) => ReduceNamespaceState(b, mid)
  {
    assert Split("") == [""];
    SegmentsAt(a, b);
    DescendAppend(state, Segments(a), Segments(b));
  }

  /** A module name (no separator, not empty) with its trailing `/` reads that
      property of the root state; the root form reads the root state. */
  lemma ModuleNamespace(name: string, state: Value)
    requires name != "" && '/' !in name
    ensures ReduceNamespaceState(AssumeNsVars(NamespacedVars(name, [])).0, state) == Prop(state, name)
    ensures ReduceNamespaceState(AssumeNsVars(RootVars([])).0, state) == Ok(state)
  {
    SplitPlain(name);
    SegmentsAt(name, "");
    assert name + "/" == name + "/" + "";
    assert Split("") == [""];
    assert Segments(name + "/") == [name];
    match Prop(state, name)
    case Err(_) =>
    case Ok(next) => assert Descend(next, []) == Ok(next);
  }

  /** The generated object has a property exactly for each variable name, and
      that property serves that name. */
  lemma {:induction false} LastEntryServes(vars: seq<string>, make: string -> Accessor, v: string)
    ensures LastValue(Entries(vars, make), v) == if v in vars then Some(make(v)) else None
    decreases |vars|
  {
    if vars != [] {
      var es := Entries(vars, make);
      assert es[1..] == Entries(vars[1..], make);
      LastEntryServes(vars[1..], make, v);
      assert v in vars <==> v == vars[0] || v in vars[1..];
    }
  }

  lemma GeneratedServes(a: ImportArgs, make: (string, string) -> Accessor, v: string)
    ensures Get(Generated(a, make), v) ==
            if v in AssumeNsVars(a).1 then Some(make(AssumeNsVars(a).0, v)) else None
  {
    var (ns, vars) := AssumeNsVars(a);
    GetSetAll([], Entries(vars, w => make(ns, w)), v);
    LastEntryServes(vars, w => make(ns, w), v);
  }

  /** Over distinct names, the generated object lists them in the given order. */
  lemma GeneratedInOrder(a: ImportArgs, make: (string, string) -> Accessor)
    requires forall i, j :: 0 <= i < j < |AssumeNsVars(a).1| ==> AssumeNsVars(a).1[i] != AssumeNsVars(a).1[j]
    ensures Keys(Generated(a, make)) == AssumeNsVars(a).1
  {
    var (ns, vars) := AssumeNsVars(a);
    FromEntriesUnique(Entries(vars, w => make(ns, w)));
  }

  /** `mapBindings(ns, vars)`: one getter per name; it reads that name in the
      namespace's state. */
  lemma MapBindingsReads(a: ImportArgs, v: string, state: Value)
    ensures Get(MapBindings(a), v).Some? <==> v in AssumeNsVars(a).1
    ensures Get(MapBindings(a), v).Some? ==>
              var g := Get(MapBindings(a), v).value;
              g == StateGetter(AssumeNsVars(a).0, v) &&
              ReadVar(g.ns, g.name, state) == ReadVar(AssumeNsVars(a).0, v, state)
  {
    GeneratedServes(a, (ns, w) => StateGetter(ns, w), v);
  }

  /** `syncParams(ns, vars)`: setting a name commits its update mutation with
      the value, prefixed by the namespace. */
  lemma SyncParamsCommit(a: ImportArgs, v: string, n: Naming, value: Value)
    ensures Get(SyncParams(a), v).Some? <==> v in AssumeNsVars(a).1
    ensures Get(SyncParams(a), v).Some? ==>
              var g := Get(SyncParams(a), v).value;
              SyncSet(g.ns, g.name, Some(n), value) ==
              Ok(Commit(AssumeNsVars(a).0 + Update(n, v), Data(value), false))
  {
    GeneratedServes(a, (ns, w) => SyncedParam(ns, w), v);
  }

  /** `mapTriggerActions(ns, vars)`: calling a name dispatches its trigger
      action, prefixed by the namespace. */
  lemma TriggerActionsDispatch(a: ImportArgs, v: string, n: Naming)
    ensures Get(MapTriggerActions(a), v).Some? <==> v in AssumeNsVars(a).1
    ensures Get(MapTriggerActions(a), v).Some? ==>
              var g := Get(MapTriggerActions(a), v).value;
              TriggerDispatch(g.ns, g.name, Some(n)) ==
              Ok(Dispatch(AssumeNsVars(a).0 + Names.Trigger(n, v), NoPayload, false))
  {
    GeneratedServes(a, (ns, w) => TriggerMethod(ns, w), v);
  }

  /** `mapBindingsWithLoading`: the view carries the state's loading flag for
      the variable, and an object variable keeps its other fields. */
  lemma LoadingViewReadsFlag(ns: string, name: string, state: Value, n: Naming)
    requires ReadVar(ns, name, state).Ok?
    ensures var r := ReadWithLoading(ns, name, state, Some(n));
            var local := ReduceNamespaceState(ns, state).value;
            r.Ok? && LoadingOf(r.value) == Prop(local, Loading(n, name)).value &&
            (ReadVar(ns, name, state).value.Obj? ==>
               forall k :: k != "loading" ==>
                 Get(r.value.view.fields, k) == Get(ReadVar(ns, name, state).value.fields, k))
  {
    var local := ReduceNamespaceState(ns, state).value;
    var x := ReadVar(ns, name, state).value;
    var l := Prop(local, Loading(n, name)).value;
    match x
    case Obj(fields) =>
      GetSet(fields, "loading", l, "loading");
      forall k | k != "loading" ensures Get(Set(fields, "loading", l), k) == Get(fields, k) {
        GetSet(fields, "loading", l, k);
      }
    case _ =>
  }
}
