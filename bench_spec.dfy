/** What one call of a benchmarked function does, as functions of the
    benchmark's configuration: build the record, run the pre-run hooks,
    call the function, run the post-run hooks, drop the transient keys and
    hand the record to the output. The class in `bench.dfy` performs these
    steps on a mutable record and is proved to agree with `Invocation`. */
module BenchSpec {
  import opened Values
  import opened Hooks
  import NameOrder
  import IsoFormat

  /** An attribute of the benchmark object, as `getattr` returns it. */
  datatype Attr = Callable(hook: Hook) | NotCallable(value: Value)

  /** The `outfile` class attribute: a path (a `str`), any other object
      (a stream with `write`), or no such attribute at all. */
  datatype Outfile = Path(path: string) | Stream | Unset

  /** What the wrapped function does when called with the given arguments. */
  datatype Outcome = Returns(value: Value) | Raises(exception: Value)

  /** The configuration a `MicroBench` object holds: the keyword arguments
      of its constructor, `_capture_before`, its attributes as `dir()` and
      `getattr` see them, and `outfile`. */
  datatype Config = Config(
    bmStatic: Record,
    captureBefore: seq<Hook>,
    attrs: map<string, Attr>,
    outfile: Outfile)

  /** What one call of the wrapper produced: its return value or exception,
      and the record it persisted, if it reached the output. */
  datatype Call = Call(result: Result<Value>, persisted: Option<Record>)

  const CapturePrefix := "capture_"

  // The `capture_*` attributes each class of the library defines.

  function MicroBenchAttrs(): map<string, Attr>
  {
    map["capture_start" := Callable(Start), "capture_finish" := Callable(Finish)]
  }

  function FunctionCallAttrs(): map<string, Attr>
  {
    map["capture_function_name" := Callable(FunctionName),
        "capture_function_args_and_kwargs" := Callable(FunctionArgsAndKwargs)]
  }

  /** A key the pipeline uses internally and never persists. */
  predicate IsTransient(key: string)
  {
    StartsWith(key, "_")
  }

  /** The record without its transient keys. */
  function StripTransient(r: Record): (p: Record)
    ensures forall k :: k in p <==> k in r && !IsTransient(k)
    ensures forall k :: k in p ==> p[k] == r[k]
  {
    map k | k in r && !IsTransient(k) :: r[k]
  }

  /** `bm_data` before the pre-run hooks: a copy of the static fields and
      the three transient keys. */
  function InitialRecord(bmStatic: Record, func: Value, args: seq<Value>, kwargs: Record): Record
  {
    (map[] + bmStatic)["_func" := func]["_args" := Tuple(args)]["_kwargs" := Dict(kwargs)]
  }

  /** `getattr(self, name)(bm_data)` as the `step`-th hook call. */
  function CallAttr(attrs: map<string, Attr>, name: string, env: Env, step: nat, r: Record): Step
  {
    if name !in attrs then Step(r, Some(AttributeError(name)))
    else match attrs[name]
      case NotCallable(_) => Step(r, Some(TypeError("object is not callable")))
      case Callable(h) => HookStep(h, env, step, r)
  }

  /** `pre_run_triggers`: the hooks of `_capture_before` in order, then
      `capture_start`. */
  function PreRun(c: Config, env: Env, r: Record): Step
  {
    var s := RunHooks(c.captureBefore, env, 0, r);
    if s.raised.Some? then s
    else CallAttr(c.attrs, "capture_start", env, |c.captureBefore|, s.data)
  }

  /** `post_run_triggers` over the attribute names `names`, in that order. */
  function PostRunFrom(names: seq<string>, c: Config, env: Env, step: nat, r: Record): Step
    requires forall n :: n in names ==> n in c.attrs
    decreases |names|
  {
    if names == [] then Step(r, None)
    else
      var name := names[0];
      if !StartsWith(name, CapturePrefix) then PostRunFrom(names[1..], c, env, step, r)
      else match c.attrs[name]
        case NotCallable(_) => Step(r, Some(ValueError(name + " is not callable")))
        case Callable(h) =>
          if h in c.captureBefore then PostRunFrom(names[1..], c, env, step, r)
          else
            var s := HookStep(h, env, step, r);
            if s.raised.Some? then s else PostRunFrom(names[1..], c, env, step + 1, s.data)
  }

  /** `post_run_triggers`: the attribute names in `dir()` order. */
  ghost function PostRun(c: Config, env: Env, step: nat, r: Record): Step
  {
    PostRunFrom(NameOrder.SortedNames(c.attrs.Keys), c, env, step, r)
  }

  /** The hooks post-run calls over `names` when no `capture_*` attribute
      is uncallable. */
  function PostHooks(names: seq<string>, c: Config): seq<Hook>
    requires forall n :: n in names ==> n in c.attrs
    decreases |names|
  {
    if names == [] then []
    else
      var n := names[0];
      var rest := PostHooks(names[1..], c);
      if StartsWith(n, CapturePrefix) && c.attrs[n].Callable? && c.attrs[n].hook !in c.captureBefore
      then [c.attrs[n].hook] + rest
      else rest
  }

  predicate CapturesCallable(c: Config)
  {
    forall n :: n in c.attrs && StartsWith(n, CapturePrefix) ==> c.attrs[n].Callable?
  }

  /** The rest of a call once the wrapped function returned `v` and the
      record is `data`: post-run hooks, then the output. */
  ghost function AfterReturn(c: Config, env: Env, data: Record, v: Value): (call: Call)
    ensures call.persisted.Some? <==> call.result.Ok?
    ensures call.result.Ok? ==> call.result.value == v
  {
    var post := PostRun(c, env, |c.captureBefore| + 1, data);
    if post.raised.Some? then Call(Err(post.raised.value), None)
    else if c.outfile.Unset? then Call(Err(AttributeError("outfile")), None)
    else Call(Ok(v), Some(StripTransient(post.data)))
  }

  /** One call of the wrapper returned by `MicroBench.__call__`. */
  ghost function Invocation(c: Config, func: Value, args: seq<Value>, kwargs: Record,
                            outcome: Outcome, env: Env): (call: Call)
    ensures call.persisted.Some? <==> call.result.Ok?
    ensures call.result.Ok? ==> outcome == Returns(call.result.value)
    ensures outcome.Raises? ==> call.result.Err?
    ensures call.persisted.Some? ==> forall k :: k in call.persisted.value ==> !IsTransient(k)
  {
    var pre := PreRun(c, env, InitialRecord(c.bmStatic, func, args, kwargs));
    if pre.raised.Some? then Call(Err(pre.raised.value), None)
    else match outcome
      case Raises(e) => Call(Err(Raised(e)), None)
      case Returns(v) => AfterReturn(c, env, pre.data, v)
  }

  /** `json_serializer`: the ISO text of a timestamp, `None` for anything
      else. */
  function JsonSerializer(o: Value): (r: Option<string>)
    ensures r.Some? <==> o.Time?
    ensures r.Some? ==> IsoFormat.Parse(r.value) == Some(o.t)
  {
    if o.Time? then
      IsoFormat.FormatRoundTrip(o.t);
      Some(IsoFormat.Format(o.t))
    else None
  }

  /** The text `output_result` writes. */
  function Line(env: Env, r: Record): string
  {
    env.encode(r) + "\n"
  }

  /** The files (by path) and the text written to the stream object. */
  datatype SinkState = SinkState(files: map<string, string>, stream: string)

  /** The sink after `output_result` wrote `line` to `outfile`. */
  function AfterOutput(outfile: Outfile, st: SinkState, line: string): SinkState
  {
    match outfile
    case Path(p) =>
      SinkState(st.files[p := (if p in st.files then st.files[p] else "") + line], st.stream)
    case Stream => SinkState(st.files, st.stream + line)
    case Unset => st
  }
}
