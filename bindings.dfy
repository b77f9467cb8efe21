/** A binding declaration, the payload a load action sends to the bind
    module, and the commits and dispatches the layer issues, recorded as a
    trace of events. */
module Bindings {
  import opened Dicts
  import opened Js
  import opened DataSources

  /** A binding's `bind_type`. The four listed types; `Unlisted` stands for an
      absent or any other value, which every rule treats like `once`. */
  datatype BindMode = Once | Watch | Trigger | Change | Unlisted

  /** One entry of a store's `bindings`. `redirect`, `create_params` and
      `loading` are kept as their truthiness; `output` is written onto the
      binding by the compiler. */
  datatype Binding = Binding(
    endpoint: Option<string>,
    mode: BindMode,
    paramMap: Option<Dict<string>>,
    createParams: bool,
    redirect: bool,
    loading: bool,
    period: Option<int>,
    output: Option<string>)

  /** The object a load action passes to the bind module's `bind` action. */
  datatype BindPayload = BindPayload(binding: Binding, endpoint: Endpoint, namespace: string, output: Option<string>)

  /** What a commit or dispatch carries. */
  datatype Payload =
    | NoPayload
    | Data(value: Value)
    | BindRequest(request: BindPayload)
    | WatchRegistration(action: string, mutations: seq<string>)
    | IntervalEntry(name: string, handle: int)

  /** One effect: a commit, a dispatch (`root` is the `{root: true}` option),
      or arming a timer that dispatches `once` with `tick` every `period`. */
  datatype Event =
    | Commit(name: string, payload: Payload, root: bool)
    | Dispatch(name: string, payload: Payload, root: bool)
    | Arm(handle: int, period: Option<int>, tick: BindPayload)

  /** A trace of effects, and the exception that ended it, if one did. */
  datatype Run = Run(events: seq<Event>, failure: Option<Fault>)
}
