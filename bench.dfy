/** The `MicroBench` class: configuration held by the object, hook dispatch
    on the mutable record `bm_data`, output of the finished record and the
    per-call wrapper `inner`. Each method is proved against the functions of
    `BenchSpec`. */
module Bench {
  import opened Values
  import opened Hooks
  import opened BenchSpec
  import NameOrder

  /** Where output lines go: files by path (opened in append mode) and the
      stream object given as `outfile`. */
  class Sink {
    var files: map<string, string>
    var stream: string

    function State(): SinkState
      reads this
    {
      SinkState(files, stream)
    }

    /** `with open(path, 'a') as f: f.write(text)`. */
    method Append(path: string, text: string)
      modifies this
      ensures files == old(files)[path := (if path in old(files) then old(files)[path] else "") + text]
      ensures stream == old(stream)
    {
      var before := if path in files then files[path] else "";
      files := files[path := before + text];
    }

    /** `outfile.write(text)`. */
    method Write(text: string)
      modifies this
      ensures stream == old(stream) + text && files == old(files)
    {
      stream := stream + text;
    }
  }

  class MicroBench {
    /** `_bm_static`: the constructor's keyword arguments. */
    const bmStatic: Record
    /** `_capture_before`: hooks to call before `capture_start`. */
    const captureBefore: seq<Hook>
    /** The attributes of the object's class, as `dir()` and `getattr` see
        them (the class body and its mixins). */
    const attrs: map<string, Attr>
    /** The class attribute `outfile`. */
    const outfile: Outfile

    function Cfg(): Config
      reads this
    {
      Config(bmStatic, captureBefore, attrs, outfile)
    }

    constructor FromKeywords(kwargs: Record, classAttrs: map<string, Attr>, classOutfile: Outfile)
      ensures bmStatic == kwargs && captureBefore == []
      ensures attrs == classAttrs && outfile == classOutfile
    {
      bmStatic := kwargs;
      attrs := classAttrs;
      outfile := classOutfile;
      captureBefore := [];
    }

    /** `MicroBench(*args, **kwargs)`: positional arguments are refused. */
    static method New(args: seq<Value>, kwargs: Record, classAttrs: map<string, Attr>,
                      classOutfile: Outfile) returns (r: Result<MicroBench>)
      ensures r.Err? <==> args != []
      ensures r.Err? ==> r.error == ValueError("Only keyword arguments are allowed")
      ensures r.Ok? ==> fresh(r.value) && r.value.bmStatic == kwargs && r.value.captureBefore == []
      ensures r.Ok? ==> r.value.attrs == classAttrs && r.value.outfile == classOutfile
    {
      if args != [] {
        return Err(ValueError("Only keyword arguments are allowed"));
      }
      var b := new MicroBench.FromKeywords(kwargs, classAttrs, classOutfile);
      r := Ok(b);
    }

    /** `capture_start`: stores the current time under `start`. */
    method CaptureStart(d: BmData, env: Env, step: nat)
      modifies d
      ensures d.items == old(d.items)["start" := Time(env.now(step))]
    {
      d.Set("start", Time(env.now(step)));
    }

    /** `capture_finish`: stores the current time under `finish`. */
    method CaptureFinish(d: BmData, env: Env, step: nat)
      modifies d
      ensures d.items == old(d.items)["finish" := Time(env.now(step))]
    {
      d.Set("finish", Time(env.now(step)));
    }

    /** `method(bm_data)` for a bound capture method `h`. */
    method Invoke(h: Hook, d: BmData, env: Env, step: nat) returns (raised: Option<Error>)
      modifies d
      ensures Step(d.items, raised) == HookStep(h, env, step, old(d.items))
    {
      raised := None;
      match h
      case Start => CaptureStart(d, env, step);
      case Finish => CaptureFinish(d, env, step);
      case FunctionName => raised := CaptureFunctionName(d, env, step);
      case FunctionArgsAndKwargs => raised := CaptureFunctionArgsAndKwargs(d, env, step);
      case PythonVersion => CapturePythonVersion(d, env, step);
      case Hostname => CaptureHostname(d, env, step);
      case Os => CaptureOs(d, env, step);
      case Constant(k, v) => CaptureConstant(k, v, d);
    }

    /** `pre_run_triggers`. */
    method PreRunTriggers(d: BmData, env: Env) returns (raised: Option<Error>)
      modifies d
      ensures Step(d.items, raised) == PreRun(Cfg(), env, old(d.items))
    {
      var i := 0;
      while i < |captureBefore|
        invariant 0 <= i <= |captureBefore|
        invariant RunHooks(captureBefore[i..], env, i, d.items) == RunHooks(captureBefore, env, 0, old(d.items))
      {
        assert captureBefore[i..][0] == captureBefore[i] && captureBefore[i..][1..] == captureBefore[i + 1..];
        raised := Invoke(captureBefore[i], d, env, i);
        if raised.Some? {
          return;
        }
        i := i + 1;
      }
      // The special case that runs last: self.capture_start(bm_data).
      if "capture_start" !in attrs {
        return Some(AttributeError("capture_start"));
      }
      match attrs["capture_start"]
      case NotCallable(_) => raised := Some(TypeError("object is not callable"));
      case Callable(h) => raised := Invoke(h, d, env, |captureBefore|);
    }

    /** `post_run_triggers`, starting at hook call number `step`. */
    method PostRunTriggers(d: BmData, env: Env, step: nat) returns (raised: Option<Error>)
      modifies d
      ensures Step(d.items, raised) == PostRun(Cfg(), env, step, old(d.items))
    {
      var names := NameOrder.Dir(attrs.Keys);
      var i, k := 0, step;
      while i < |names|
        invariant 0 <= i <= |names|
        invariant PostRunFrom(names[i..], Cfg(), env, k, d.items) == PostRun(Cfg(), env, step, old(d.items))
      {
        var name := names[i];
        assert names[i..][0] == name && names[i..][1..] == names[i + 1..];
        if StartsWith(name, CapturePrefix) {
          match attrs[name]
          case NotCallable(_) =>
            return Some(ValueError(name + " is not callable"));
          case Callable(h) =>
            if h !in captureBefore {
              raised := Invoke(h, d, env, k);
              if raised.Some? {
                return;
              }
              k := k + 1;
            }
        }
        i := i + 1;
      }
      raised := None;
    }

    /** `output_result`: one line, the encoded record and a newline, appended
        to the file when `outfile` is a path and written to it otherwise. */
    method OutputResult(rec: Record, env: Env, sink: Sink) returns (raised: Option<Error>)
      modifies sink
      ensures raised.Some? <==> outfile.Unset?
      ensures raised.Some? ==> raised.value == AttributeError("outfile")
      ensures sink.State() == AfterOutput(outfile, old(sink.State()), Line(env, rec))
    {
      var text := env.encode(rec) + "\n";
      match outfile
      case Path(p) => sink.Append(p, text); raised := None;
      case Stream => sink.Write(text); raised := None;
      case Unset => raised := Some(AttributeError("outfile"));
    }

    /** The first lines of `inner`: a fresh `bm_data` holding the static
        fields and the transient keys. */
    method NewRecord(func: Value, args: seq<Value>, kwargs: Record) returns (d: BmData)
      ensures fresh(d) && d.items == InitialRecord(bmStatic, func, args, kwargs)
    {
      d := new BmData();
      d.Update(bmStatic);
      d.Set("_func", func);
      d.Set("_args", Tuple(args));
      d.Set("_kwargs", Dict(kwargs));
    }

    /** The part of `inner` after `func` returned `v`: post-run hooks, the
        transient keys deleted, the record written out, `v` returned. */
    method AfterCall(d: BmData, v: Value, env: Env, sink: Sink) returns (r: Result<Value>)
      modifies d, sink
      ensures var call := AfterReturn(Cfg(), env, old(d.items), v);
        && r == call.result
        && sink.State() == if call.persisted.Some?
                           then AfterOutput(outfile, old(sink.State()), Line(env, call.persisted.value))
                           else old(sink.State())
    {
      ghost var call := AfterReturn(Cfg(), env, d.items, v);
      var raised := PostRunTriggers(d, env, |captureBefore| + 1);
      if raised.Some? {
        assert call == Call(Err(raised.value), None);
        return Err(raised.value);
      }
      // Delete any underscore-prefixed keys.
      var rec := StripTransient(d.items);
      raised := OutputResult(rec, env, sink);
      if raised.Some? {
        assert call == Call(Err(raised.value), None);
        return Err(raised.value);
      }
      assert call == Call(Ok(v), Some(rec));
      return Ok(v);
    }

    /** `inner(*args, **kwargs)` of the wrapper `__call__(func)` returns;
        `outcome` is what `func(*args, **kwargs)` does. */
    method Inner(func: Value, args: seq<Value>, kwargs: Record, outcome: Outcome,
                 env: Env, sink: Sink) returns (r: Result<Value>)
      modifies sink
      ensures var call := Invocation(Cfg(), func, args, kwargs, outcome, env);
        && r == call.result
        && sink.State() == if call.persisted.Some?
                           then AfterOutput(outfile, old(sink.State()), Line(env, call.persisted.value))
                           else old(sink.State())
    {
      var d := NewRecord(func, args, kwargs);
      var raised := PreRunTriggers(d, env);
      if raised.Some? {
        return Err(raised.value);
      }
      match outcome {
        case Raises(e) =>
          return Err(Raised(e));
        case Returns(v) =>
          r := AfterCall(d, v, env, sink);
      }
    }
  }
}
