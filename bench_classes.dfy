/** The records the library's own classes persist: a plain `MicroBench`
    and a class that also derives from `MBFunctionCall`, with the hook order
    `dir()` gives them. */
module BenchClasses {
  import opened Values
  import opened Hooks
  import opened BenchSpec
  import opened BenchProps
  import NameOrder

  lemma CaptureFinishFirst()
    ensures NameOrder.Less("capture_finish", "capture_start")
  {
    assert "capture_finish" == CapturePrefix + "finish" && "capture_start" == CapturePrefix + "start";
    assert NameOrder.Less("finish", "start");
    NameOrder.LessCommonPrefix(CapturePrefix, "finish", "start");
  }

  /** `dir()` lists the two timestamp hooks of `MicroBench` as
      `capture_finish`, then `capture_start`, and both are callable. */
  lemma MicroBenchDirOrder()
    ensures NameOrder.SortedNames(MicroBenchAttrs().Keys) == ["capture_finish", "capture_start"]
    ensures AllCallable(MicroBenchAttrs())
  {
    assert MicroBenchAttrs().Keys == {"capture_finish", "capture_start"};
    CaptureFinishFirst();
    DirOfTwo("capture_finish", "capture_start");
  }

  lemma MicroBenchPostHooks(c: Config)
    requires c.attrs == MicroBenchAttrs() && c.captureBefore == []
    ensures PostHooks(["capture_finish", "capture_start"], c) == [Finish, Start]
  {
    assert StartsWith("capture_finish", CapturePrefix) && StartsWith("capture_start", CapturePrefix);
    var names := ["capture_finish", "capture_start"];
    assert names[1..] == ["capture_start"] && names[1..][1..] == [];
  }

  lemma MicroBenchPostRun(c: Config, env: Env, r: Record)
    requires c.attrs == MicroBenchAttrs() && c.captureBefore == []
    ensures PostRun(c, env, 1, r) == Step(r["finish" := Time(env.now(1))]["start" := Time(env.now(2))], None)
  {
    MicroBenchPostRunHooks(c, env, r);
    MicroBenchHooks(env, r);
  }

  lemma MicroBenchPostRunHooks(c: Config, env: Env, r: Record)
    requires c.attrs == MicroBenchAttrs() && c.captureBefore == []
    ensures PostRun(c, env, 1, r) == RunHooks([Finish, Start], env, 1, r)
  {
    MicroBenchDirOrder();
    PostRunVia(c, env, 1, r, ["capture_finish", "capture_start"]);
    MicroBenchPostHooks(c);
  }

  lemma MicroBenchHooks(env: Env, r: Record)
    ensures RunHooks([Finish, Start], env, 1, r)
         == Step(r["finish" := Time(env.now(1))]["start" := Time(env.now(2))], None)
  {
    RunHooksCons(Start, [], env, 2, r["finish" := Time(env.now(1))]);
    assert [Start] == [Start] + [];
    RunHooksCons(Finish, [Start], env, 1, r);
    assert [Finish, Start] == [Finish] + [Start];
  }

  lemma MicroBenchPreRun(c: Config, env: Env, r: Record)
    requires c.attrs == MicroBenchAttrs() && c.captureBefore == []
    ensures PreRun(c, env, r) == Step(r["start" := Time(env.now(0))], None)
  {
  }

  lemma StripStamps(bmStatic: Record, r0: Record, t0: Value, t1: Value, t2: Value)
    requires StripTransient(r0) == StripTransient(bmStatic)
    ensures StripTransient(r0["start" := t0]["finish" := t1]["start" := t2])
         == StripTransient(bmStatic)["finish" := t1]["start" := t2]
  {
    assert "start"[..1][0] == 's' && "finish"[..1][0] == 'f';
    StripUpdate(r0, "start", t0);
    StripUpdate(r0["start" := t0], "finish", t1);
    StripUpdate(r0["start" := t0]["finish" := t1], "start", t2);
    Overwritten(StripTransient(bmStatic), "start", "finish", t0, t1, t2);
  }

  /** A key written again after another key loses its first value. */
  lemma Overwritten(m: Record, k: string, j: string, a: Value, b: Value, c: Value)
    requires k != j
    ensures m[k := a][j := b][k := c] == m[j := b][k := c]
  {
  }

  /** A plain `MicroBench` records `start` before the call, then in
      post-run `finish` and, because `capture_start` is not in
      `_capture_before`, `start` again: the persisted `start` is the third
      clock reading and `finish` the second. */
  lemma MicroBenchRecord(c: Config, func: Value, args: seq<Value>, kwargs: Record, v: Value, env: Env)
    requires c.attrs == MicroBenchAttrs() && c.captureBefore == [] && !c.outfile.Unset?
    ensures Invocation(c, func, args, kwargs, Returns(v), env) ==
      Call(Ok(v), Some(StripTransient(c.bmStatic)["finish" := Time(env.now(1))]["start" := Time(env.now(2))]))
  {
    var r0 := InitialRecord(c.bmStatic, func, args, kwargs);
    MicroBenchPreRun(c, env, r0);
    var r1 := r0["start" := Time(env.now(0))];
    assert Invocation(c, func, args, kwargs, Returns(v), env) == AfterReturn(c, env, r1, v);
    assert |c.captureBefore| + 1 == 1;
    MicroBenchPostRun(c, env, r1);
    AfterReturnOk(c, env, r1, v);
    InitialRecordStrip(c.bmStatic, func, args, kwargs);
    StripStamps(c.bmStatic, r0, Time(env.now(0)), Time(env.now(1)), Time(env.now(2)));
  }

  lemma FinishBeforeArgs()
    ensures NameOrder.Less("capture_finish", "capture_function_args_and_kwargs")
  {
    var p := "capture_f";
    assert "capture_finish" == p + "inish" && "capture_function_args_and_kwargs" == p + "unction_args_and_kwargs";
    assert NameOrder.Less("inish", "unction_args_and_kwargs");
    NameOrder.LessCommonPrefix(p, "inish", "unction_args_and_kwargs");
  }

  lemma ArgsBeforeName()
    ensures NameOrder.Less("capture_function_args_and_kwargs", "capture_function_name")
  {
    var q := "capture_function_";
    assert "capture_function_args_and_kwargs" == q + "args_and_kwargs" && "capture_function_name" == q + "name";
    assert NameOrder.Less("args_and_kwargs", "name");
    NameOrder.LessCommonPrefix(q, "args_and_kwargs", "name");
  }

  lemma NameBeforeStart()
    ensures NameOrder.Less("capture_function_name", "capture_start")
  {
    assert "capture_function_name" == CapturePrefix + "function_name" && "capture_start" == CapturePrefix + "start";
    assert NameOrder.Less("function_name", "start");
    NameOrder.LessCommonPrefix(CapturePrefix, "function_name", "start");
  }

  /** The capture attributes of a class deriving from `MicroBench` and
      `MBFunctionCall`, in `dir()` order. */
  function FunctionCallNames(): seq<string>
  {
    ["capture_finish", "capture_function_args_and_kwargs", "capture_function_name", "capture_start"]
  }

  lemma FunctionCallDirOrder()
    ensures NameOrder.SortedNames((MicroBenchAttrs() + FunctionCallAttrs()).Keys) == FunctionCallNames()
  {
    assert (MicroBenchAttrs() + FunctionCallAttrs()).Keys
        == {"capture_finish", "capture_function_args_and_kwargs", "capture_function_name", "capture_start"};
    FinishBeforeArgs();
    ArgsBeforeName();
    NameBeforeStart();
    DirOfFour("capture_finish", "capture_function_args_and_kwargs", "capture_function_name", "capture_start");
  }

  lemma FunctionCallPostHooks(c: Config)
    requires c.attrs == MicroBenchAttrs() + FunctionCallAttrs() && c.captureBefore == []
    ensures PostHooks(FunctionCallNames(), c) == [Finish, FunctionArgsAndKwargs, FunctionName, Start]
  {
    var n0, n1, n2, n3 := "capture_finish", "capture_function_args_and_kwargs", "capture_function_name", "capture_start";
    FunctionCallAttrsAt(c);
    PostHooksCons(n3, [], c, Start);
    assert [n3] + [] == [n3];
    PostHooksCons(n2, [n3], c, FunctionName);
    PostHooksCons(n1, [n2, n3], c, FunctionArgsAndKwargs);
    PostHooksCons(n0, [n1, n2, n3], c, Finish);
    assert FunctionCallNames() == [n0] + [n1, n2, n3];
    assert [n1, n2, n3] == [n1] + [n2, n3] && [n2, n3] == [n2] + [n3];
  }

  lemma FunctionCallAttrsAt(c: Config)
    requires c.attrs == MicroBenchAttrs() + FunctionCallAttrs()
    ensures c.attrs.Keys == {"capture_finish", "capture_function_args_and_kwargs", "capture_function_name", "capture_start"}
    ensures c.attrs["capture_finish"] == Callable(Finish)
    ensures c.attrs["capture_function_args_and_kwargs"] == Callable(FunctionArgsAndKwargs)
    ensures c.attrs["capture_function_name"] == Callable(FunctionName)
    ensures c.attrs["capture_start"] == Callable(Start)
    ensures StartsWith("capture_finish", CapturePrefix) && StartsWith("capture_function_args_and_kwargs", CapturePrefix)
    ensures StartsWith("capture_function_name", CapturePrefix) && StartsWith("capture_start", CapturePrefix)
  {
  }

  /** Post-run calls a callable `capture_*` attribute not already run
      before the call. */
  lemma PostHooksCons(n: string, names: seq<string>, c: Config, h: Hook)
    requires n in c.attrs && (forall m :: m in names ==> m in c.attrs)
    requires StartsWith(n, CapturePrefix) && c.attrs[n] == Callable(h) && h !in c.captureBefore
    ensures PostHooks([n] + names, c) == [h] + PostHooks(names, c)
  {
    assert ([n] + names)[0] == n && ([n] + names)[1..] == names;
  }

  lemma FunctionCallAllCallable()
    ensures AllCallable(MicroBenchAttrs() + FunctionCallAttrs())
  {
    assert AllCallable(MicroBenchAttrs());
    assert AllCallable(FunctionCallAttrs());
  }

  lemma FunctionCallHooks(env: Env, r: Record, name: string)
    requires "_func" in r && r["_func"] == Func(name) && "_args" in r && "_kwargs" in r
    ensures RunHooks([Finish, FunctionArgsAndKwargs, FunctionName, Start], env, 1, r)
      == Step(r + FunctionCallStamps(Time(env.now(1)), r["_args"], r["_kwargs"], Str(name), Time(env.now(4))), None)
  {
    FunctionCallStampsOverride(r, Time(env.now(1)), r["_args"], r["_kwargs"], Str(name), Time(env.now(4)));
    FunctionCallChain(env, r, name);
  }

  lemma FunctionCallChain(env: Env, r: Record, name: string)
    requires "_func" in r && r["_func"] == Func(name) && "_args" in r && "_kwargs" in r
    ensures RunHooks([Finish, FunctionArgsAndKwargs, FunctionName, Start], env, 1, r)
      == Step(r["finish" := Time(env.now(1))]["args" := r["_args"]]["kwargs" := r["_kwargs"]]
               ["function_name" := Str(name)]["start" := Time(env.now(4))], None)
  {
    var r1 := r["finish" := Time(env.now(1))];
    assert r1["_func"] == r["_func"] && r1["_args"] == r["_args"] && r1["_kwargs"] == r["_kwargs"];
    var r2 := ArgsStep(env, 2, r1);
    var r3 := r2["function_name" := Str(name)];
    RunHooksCons(Start, [], env, 4, r3);
    assert [Start] == [Start] + [];
    RunHooksCons(FunctionName, [Start], env, 3, r2);
    RunHooksCons(FunctionArgsAndKwargs, [FunctionName, Start], env, 2, r1);
    assert [FunctionArgsAndKwargs, FunctionName, Start] == [FunctionArgsAndKwargs] + [FunctionName, Start];
    assert [FunctionName, Start] == [FunctionName] + [Start];
    RunHooksCons(Finish, [FunctionArgsAndKwargs, FunctionName, Start], env, 1, r);
    assert [Finish, FunctionArgsAndKwargs, FunctionName, Start] == [Finish] + [FunctionArgsAndKwargs, FunctionName, Start];
  }

  /** `capture_function_args_and_kwargs` on a record that holds `_args`
      and `_kwargs` copies them and keeps `_func`. */
  lemma ArgsStep(env: Env, step: nat, r: Record) returns (r2: Record)
    requires "_args" in r && "_kwargs" in r
    ensures r2 == r["args" := r["_args"]]["kwargs" := r["_kwargs"]]
    ensures HookStep(FunctionArgsAndKwargs, env, step, r) == Step(r2, None)
    ensures "_func" in r ==> "_func" in r2 && r2["_func"] == r["_func"]
  {
    var r1 := r["args" := r["_args"]];
    assert r1["_kwargs"] == r["_kwargs"];
    r2 := r1["kwargs" := r["_kwargs"]];
  }

  lemma FunctionCallPostRunHooks(c: Config, env: Env, r: Record)
    requires NameOrder.SortedNames(c.attrs.Keys) == FunctionCallNames() && AllCallable(c.attrs)
    requires PostHooks(FunctionCallNames(), c) == [Finish, FunctionArgsAndKwargs, FunctionName, Start]
    requires c.captureBefore == []
    ensures PostRun(c, env, |c.captureBefore| + 1, r)
         == RunHooks([Finish, FunctionArgsAndKwargs, FunctionName, Start], env, |c.captureBefore| + 1, r)
  {
    PostRunVia(c, env, |c.captureBefore| + 1, r, FunctionCallNames());
  }

  lemma FunctionCallPostRunOf(c: Config, env: Env, r: Record, name: string)
    requires NameOrder.SortedNames(c.attrs.Keys) == FunctionCallNames() && AllCallable(c.attrs)
    requires PostHooks(FunctionCallNames(), c) == [Finish, FunctionArgsAndKwargs, FunctionName, Start]
    requires c.captureBefore == []
    requires "_func" in r && r["_func"] == Func(name) && "_args" in r && "_kwargs" in r
    ensures PostRun(c, env, |c.captureBefore| + 1, r) == Step(r + FunctionCallStamps(
      Time(env.now(1)), r["_args"], r["_kwargs"], Str(name), Time(env.now(4))), None)
  {
    FunctionCallPostRunHooks(c, env, r);
    assert |c.captureBefore| + 1 == 1;
    var x := RunHooks([Finish, FunctionArgsAndKwargs, FunctionName, Start], env, 1, r);
    assert PostRun(c, env, |c.captureBefore| + 1, r) == x;
    FunctionCallHooks(env, r, name);
  }

  lemma FunctionCallPostRun(c: Config, env: Env, r: Record, name: string)
    requires c.attrs == MicroBenchAttrs() + FunctionCallAttrs() && c.captureBefore == []
    requires "_func" in r && r["_func"] == Func(name) && "_args" in r && "_kwargs" in r
    ensures PostRun(c, env, |c.captureBefore| + 1, r) == Step(r + FunctionCallStamps(
      Time(env.now(1)), r["_args"], r["_kwargs"], Str(name), Time(env.now(4))), None)
  {
    FunctionCallDirOrder();
    FunctionCallAllCallable();
    FunctionCallPostHooks(c);
    FunctionCallPostRunOf(c, env, r, name);
  }

  lemma FunctionCallKeysPersist()
    ensures !IsTransient("start") && !IsTransient("finish") && !IsTransient("args")
    ensures !IsTransient("kwargs") && !IsTransient("function_name")
  {
    assert "start"[..1][0] == 's' && "finish"[..1][0] == 'f' && "args"[..1][0] == 'a';
    assert "kwargs"[..1][0] == 'k' && "function_name"[..1][0] == 'f';
  }

  /** The updates the hooks make, as one override. */
  function FunctionCallStamps(t1: Value, a: Value, k: Value, n: Value, t4: Value): Record
  {
    map["finish" := t1, "args" := a, "kwargs" := k, "function_name" := n, "start" := t4]
  }

  lemma FunctionCallStampsOverride(r: Record, t1: Value, a: Value, k: Value, n: Value, t4: Value)
    ensures r["finish" := t1]["args" := a]["kwargs" := k]["function_name" := n]["start" := t4]
         == r + FunctionCallStamps(t1, a, k, n, t4)
    ensures forall key :: key in FunctionCallStamps(t1, a, k, n, t4) ==> !IsTransient(key)
    ensures "start" in FunctionCallStamps(t1, a, k, n, t4)
  {
    var u1 := map["finish" := t1];
    var u2 := u1["args" := a];
    var u3 := u2["kwargs" := k];
    var u4 := u3["function_name" := n];
    assert r + map[] == r;
    UpdateOverride(r, map[], "finish", t1);
    UpdateOverride(r, u1, "args", a);
    UpdateOverride(r, u2, "kwargs", k);
    UpdateOverride(r, u3, "function_name", n);
    UpdateOverride(r, u4, "start", t4);
    FunctionCallKeysPersist();
  }

  lemma FunctionCallPreRun(c: Config, env: Env, r: Record)
    requires c.attrs == MicroBenchAttrs() + FunctionCallAttrs() && c.captureBefore == []
    ensures PreRun(c, env, r) == Step(r["start" := Time(env.now(0))], None)
  {
    assert "capture_start" in c.attrs && c.attrs["capture_start"] == Callable(Start);
  }

  lemma FunctionCallSteps(c: Config, name: string, args: seq<Value>, kwargs: Record, env: Env)
    requires c.attrs == MicroBenchAttrs() + FunctionCallAttrs() && c.captureBefore == []
    ensures var r1 := InitialRecord(c.bmStatic, Func(name), args, kwargs)["start" := Time(env.now(0))];
      var u := FunctionCallStamps(Time(env.now(1)), Tuple(args), Dict(kwargs), Str(name), Time(env.now(4)));
      && PreRun(c, env, InitialRecord(c.bmStatic, Func(name), args, kwargs)) == Step(r1, None)
      && PostRun(c, env, |c.captureBefore| + 1, r1) == Step(r1 + u, None)
  {
    var r0 := InitialRecord(c.bmStatic, Func(name), args, kwargs);
    FunctionCallPreRun(c, env, r0);
    var r1 := r0["start" := Time(env.now(0))];
    assert r1["_func"] == Func(name) && r1["_args"] == Tuple(args) && r1["_kwargs"] == Dict(kwargs);
    FunctionCallPostRun(c, env, r1, name);
  }

  /** A class deriving from `MicroBench` and `MBFunctionCall` persists the
      static fields, `finish`, the call's positional and keyword arguments,
      the function's name and `start` from `now(4)`, the reading at the fifth
      hook call (three clock readings in all). */
  lemma FunctionCallRecord(c: Config, name: string, args: seq<Value>, kwargs: Record, v: Value, env: Env)
    requires c.attrs == MicroBenchAttrs() + FunctionCallAttrs() && c.captureBefore == [] && !c.outfile.Unset?
    ensures Invocation(c, Func(name), args, kwargs, Returns(v), env) ==
      Call(Ok(v), Some(StripTransient(c.bmStatic) + FunctionCallStamps(
        Time(env.now(1)), Tuple(args), Dict(kwargs), Str(name), Time(env.now(4)))))
  {
    FunctionCallSteps(c, name, args, kwargs, env);
    var u := FunctionCallStamps(Time(env.now(1)), Tuple(args), Dict(kwargs), Str(name), Time(env.now(4)));
    FunctionCallStampsOverride(map[], Time(env.now(1)), Tuple(args), Dict(kwargs), Str(name), Time(env.now(4)));
    RecordFromStamps(c, Func(name), args, kwargs, v, env, Time(env.now(0)), u);
  }
}
