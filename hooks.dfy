/** Capture hooks: the `capture_*` methods that the pipeline calls with the
    record `bm_data`, which each hook updates in place. A hook only adds or
    overwrites keys; `HookStep` is the meaning of one hook call and
    `RunHooks` the meaning of calling a list of hooks in order, stopping at
    the first one that raises. */
module Hooks {
  import opened Values

  /** The hooks the library defines, plus `Constant`, a user-defined capture
      method that writes one fixed key. */
  datatype Hook =
    | Start                   // MicroBench.capture_start
    | Finish                  // MicroBench.capture_finish
    | FunctionName            // MBFunctionCall.capture_function_name
    | FunctionArgsAndKwargs   // MBFunctionCall.capture_function_args_and_kwargs
    | PythonVersion           // MBPythonVersion.capture_python_version
    | Hostname                // MBHostInfo.capture_hostname
    | Os                      // MBHostInfo.capture_os
    | Constant(key: string, value: Value)

  /** What the hooks read from outside the program. `now(k)` is what
      `datetime.now()` returns in the k-th hook call of an invocation
      (nothing orders these readings); `encode` is `json.dumps` with the
      library's serializer as `default`. */
  datatype Env = Env(
    now: nat -> DateTime,
    pythonVersion: string,   // platform.python_version()
    hostname: string,        // socket.gethostname()
    platform: string,        // sys.platform
    encode: Record -> string)

  /** The record after a call (which may have changed it partly) and the
      exception the call raised, if any. */
  datatype Step = Step(data: Record, raised: Option<Error>)

  /** The keys a hook may write. */
  function Writes(h: Hook): set<string>
  {
    match h
    case Start => {"start"}
    case Finish => {"finish"}
    case FunctionName => {"function_name"}
    case FunctionArgsAndKwargs => {"args", "kwargs"}
    case PythonVersion => {"python_version"}
    case Hostname => {"hostname"}
    case Os => {"operating_system"}
    case Constant(k, _) => {k}
  }

  function WritesAll(hs: seq<Hook>): set<string>
  {
    if hs == [] then {} else Writes(hs[0]) + WritesAll(hs[1..])
  }

  /** `after` is `before` with some keys of `keys` added or overwritten and
      nothing else changed or removed. */
  predicate Confined(before: Record, after: Record, keys: set<string>)
  {
    && before.Keys <= after.Keys
    && after.Keys <= before.Keys + keys
    && forall k :: k in before && k !in keys ==> after[k] == before[k]
  }

  /** One hook call on `r`, as the `step`-th hook call of an invocation. */
  function HookStep(h: Hook, env: Env, step: nat, r: Record): (s: Step)
    ensures s.raised.Some? ==> h.FunctionName? || h.FunctionArgsAndKwargs?
    ensures h.FunctionName? ==> (s.raised.None? <==> "_func" in r && r["_func"].Func?)
    ensures h.FunctionArgsAndKwargs? ==> (s.raised.None? <==> "_args" in r && "_kwargs" in r)
  {
    match h
    case Start => Step(r["start" := Time(env.now(step))], None)
    case Finish => Step(r["finish" := Time(env.now(step))], None)
    case FunctionName =>
      if "_func" !in r then Step(r, Some(KeyError("_func")))
      else if r["_func"].Func? then Step(r["function_name" := Str(r["_func"].name)], None)
      else Step(r, Some(AttributeError("__name__")))
    case FunctionArgsAndKwargs =>
      if "_args" !in r then Step(r, Some(KeyError("_args")))
      else
        var r1 := r["args" := r["_args"]];
        if "_kwargs" !in r1 then Step(r1, Some(KeyError("_kwargs")))
        else Step(r1["kwargs" := r1["_kwargs"]], None)
    case PythonVersion => Step(r["python_version" := Str(env.pythonVersion)], None)
    case Hostname => Step(r["hostname" := Str(env.hostname)], None)
    case Os => Step(r["operating_system" := Str(env.platform)], None)
    case Constant(k, v) => Step(r[k := v], None)
  }

  /** A hook only adds or overwrites the keys it writes. */
  lemma HookStepConfined(h: Hook, env: Env, step: nat, r: Record)
    ensures Confined(r, HookStep(h, env, step, r).data, Writes(h))
  {
  }

  /** Calls `hs` in order on `r`, the first as hook call number `step`;
      the first exception stops the sequence and propagates. */
  function RunHooks(hs: seq<Hook>, env: Env, step: nat, r: Record): Step
    decreases |hs|
  {
    if hs == [] then Step(r, None)
    else
      var first := HookStep(hs[0], env, step, r);
      if first.raised.Some? then first
      else
        RunHooks(hs[1..], env, step + 1, first.data)
  }

  /** A list of hooks only adds or overwrites the keys its hooks write. */
  lemma {:induction false} RunHooksConfined(hs: seq<Hook>, env: Env, step: nat, r: Record)
    ensures Confined(r, RunHooks(hs, env, step, r).data, WritesAll(hs))
    decreases |hs|
  {
    if hs != [] {
      var first := HookStep(hs[0], env, step, r);
      HookStepConfined(hs[0], env, step, r);
      if first.raised.None? {
        RunHooksConfined(hs[1..], env, step + 1, first.data);
      }
    }
  }

  /** Running `xs + ys` is running `xs`, then, unless it raised, `ys`. */
  lemma {:induction false} RunHooksAppend(xs: seq<Hook>, ys: seq<Hook>, env: Env, step: nat, r: Record)
    ensures RunHooks(xs + ys, env, step, r) ==
      var s := RunHooks(xs, env, step, r);
      if s.raised.Some? then s else RunHooks(ys, env, step + |xs|, s.data)
    decreases |xs|
  {
    if xs == [] {
      assert xs + ys == ys;
    } else {
      var zs := xs + ys;
      assert zs[0] == xs[0] && zs[1..] == xs[1..] + ys;
      var first := HookStep(xs[0], env, step, r);
      if first.raised.Some? {
        assert RunHooks(zs, env, step, r) == first;
        assert RunHooks(xs, env, step, r) == first;
      } else {
        RunHooksAppend(xs[1..], ys, env, step + 1, first.data);
        var s1 := RunHooks(xs[1..], env, step + 1, first.data);
        assert |xs[1..]| == |xs| - 1;
        assert RunHooks(zs, env, step, r) == RunHooks(zs[1..], env, step + 1, first.data);
        assert RunHooks(xs, env, step, r) == s1;
      }
    }
  }

  /** A hook list raises nothing when the record holds a function under
      `_func`, holds `_args` and `_kwargs`, and no hook overwrites `_func`. */
  lemma {:induction false} RunHooksSucceeds(hs: seq<Hook>, env: Env, step: nat, r: Record)
    requires "_func" in r && "_args" in r && "_kwargs" in r
    requires r["_func"].Func? || FunctionName !in hs
    requires "_func" !in WritesAll(hs)
    ensures RunHooks(hs, env, step, r).raised.None?
    decreases |hs|
  {
    if hs != [] {
      assert hs[0] in hs;
      assert forall x :: x in hs[1..] ==> x in hs;
      var first := HookStep(hs[0], env, step, r);
      HookStepConfined(hs[0], env, step, r);
      RunHooksSucceeds(hs[1..], env, step + 1, first.data);
    }
  }

  /** The dict `bm_data`, updated in place by `update`, item assignment
      and the hooks. */
  class BmData {
    var items: Record

    constructor ()
      ensures items == map[]
    {
      items := map[];
    }

    /** `bm_data.update(m)`: the entries of `m` win. */
    method Update(m: Record)
      modifies this
      ensures items == old(items) + m
    {
      items := items + m;
    }

    /** `bm_data[key] = v`. */
    method Set(key: string, v: Value)
      modifies this
      ensures items == old(items)[key := v]
    {
      items := items[key := v];
    }
  }

  // The mixins' capture methods. Each takes the record and, as `env` and
  // `step`, the state of the world at the time of the call.

  /** MBFunctionCall.capture_function_name: `bm_data['_func'].__name__`. */
  method CaptureFunctionName(d: BmData, env: Env, step: nat) returns (raised: Option<Error>)
    modifies d
    ensures Step(d.items, raised) == HookStep(FunctionName, env, step, old(d.items))
  {
    if "_func" !in d.items {
      return Some(KeyError("_func"));
    }
    var f := d.items["_func"];
    if !f.Func? {
      return Some(AttributeError("__name__"));
    }
    d.Set("function_name", Str(f.name));
    raised := None;
  }

  /** MBFunctionCall.capture_function_args_and_kwargs. */
  method CaptureFunctionArgsAndKwargs(d: BmData, env: Env, step: nat) returns (raised: Option<Error>)
    modifies d
    ensures Step(d.items, raised) == HookStep(FunctionArgsAndKwargs, env, step, old(d.items))
  {
    if "_args" !in d.items {
      return Some(KeyError("_args"));
    }
    d.Set("args", d.items["_args"]);
    if "_kwargs" !in d.items {
      return Some(KeyError("_kwargs"));
    }
    d.Set("kwargs", d.items["_kwargs"]);
    raised := None;
  }

  /** MBPythonVersion.capture_python_version. */
  method CapturePythonVersion(d: BmData, env: Env, step: nat)
    modifies d
    ensures d.items == HookStep(PythonVersion, env, step, old(d.items)).data
  {
    d.Set("python_version", Str(env.pythonVersion));
  }

  /** MBHostInfo.capture_hostname. */
  method CaptureHostname(d: BmData, env: Env, step: nat)
    modifies d
    ensures d.items == HookStep(Hostname, env, step, old(d.items)).data
  {
    d.Set("hostname", Str(env.hostname));
  }

  /** MBHostInfo.capture_os. */
  method CaptureOs(d: BmData, env: Env, step: nat)
    modifies d
    ensures d.items == HookStep(Os, env, step, old(d.items)).data
  {
    d.Set("operating_system", Str(env.platform));
  }

  /** A user-defined capture method that stores one value under one key. */
  method CaptureConstant(key: string, v: Value, d: BmData)
    modifies d
    ensures d.items == old(d.items)[key := v]
  {
    d.Set(key, v);
  }
}
