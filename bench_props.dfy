/** What one benchmarked call guarantees about the persisted record: which
    keys it holds, which static fields survive, in which order the hooks run
    and when the wrapped function's result comes back unchanged. */
module BenchProps {
  import opened Values
  import opened Hooks
  import opened BenchSpec
  import NameOrder

  /** Every key some callable attribute's hook may write. */
  function AttrWrites(attrs: map<string, Attr>): set<string>
  {
    set n, k | n in attrs && attrs[n].Callable? && k in Writes(attrs[n].hook) :: k
  }

  /** The hooks of the callable attributes. */
  function AttrHooks(attrs: map<string, Attr>): set<Hook>
  {
    set n | n in attrs && attrs[n].Callable? :: attrs[n].hook
  }

  /** Every key a hook of the configuration may write. */
  function HookWrites(c: Config): set<string>
  {
    WritesAll(c.captureBefore) + AttrWrites(c.attrs)
  }

  lemma ConfinedTrans(a: Record, b: Record, d: Record, k1: set<string>, k2: set<string>, k: set<string>)
    requires Confined(a, b, k1) && Confined(b, d, k2) && k1 + k2 <= k
    ensures Confined(a, d, k)
  {
  }

  lemma HookWritesAttr(attrs: map<string, Attr>, n: string)
    requires n in attrs && attrs[n].Callable?
    ensures Writes(attrs[n].hook) <= AttrWrites(attrs)
  {
  }

  /** Pre-run only adds or overwrites keys the configuration's hooks write. */
  lemma PreRunConfined(c: Config, env: Env, r: Record)
    ensures Confined(r, PreRun(c, env, r).data, HookWrites(c))
  {
    var s := RunHooks(c.captureBefore, env, 0, r);
    RunHooksConfined(c.captureBefore, env, 0, r);
    if s.raised.None? && "capture_start" in c.attrs && c.attrs["capture_start"].Callable? {
      var h := c.attrs["capture_start"].hook;
      HookStepConfined(h, env, |c.captureBefore|, s.data);
      HookWritesAttr(c.attrs, "capture_start");
      ConfinedTrans(r, s.data, PreRun(c, env, r).data, WritesAll(c.captureBefore), Writes(h), HookWrites(c));
    }
  }

  /** Post-run only adds or overwrites keys the attributes' hooks write. */
  lemma {:induction false} PostRunFromConfined(names: seq<string>, c: Config, env: Env, step: nat, r: Record)
    requires forall n :: n in names ==> n in c.attrs
    ensures Confined(r, PostRunFrom(names, c, env, step, r).data, AttrWrites(c.attrs))
    decreases |names|
  {
    if names != [] {
      var name := names[0];
      assert name in names;
      assert forall n :: n in names[1..] ==> n in names;
      if StartsWith(name, CapturePrefix) && c.attrs[name].Callable? && c.attrs[name].hook !in c.captureBefore {
        var h := c.attrs[name].hook;
        var s := HookStep(h, env, step, r);
        HookStepConfined(h, env, step, r);
        HookWritesAttr(c.attrs, name);
        if s.raised.None? {
          PostRunFromConfined(names[1..], c, env, step + 1, s.data);
          ConfinedTrans(r, s.data, PostRunFrom(names, c, env, step, r).data,
                        Writes(h), AttrWrites(c.attrs), AttrWrites(c.attrs));
        }
      } else if !StartsWith(name, CapturePrefix) || c.attrs[name].Callable? {
        PostRunFromConfined(names[1..], c, env, step, r);
      }
    }
  }

  /** Stripping the record `inner` starts from leaves the static fields
      without their transient keys. */
  lemma InitialRecordStrip(bmStatic: Record, func: Value, args: seq<Value>, kwargs: Record)
    ensures StripTransient(InitialRecord(bmStatic, func, args, kwargs)) == StripTransient(bmStatic)
  {
  }

  lemma StripConfined(bmStatic: Record, r0: Record, data: Record, keys: set<string>)
    requires StripTransient(r0) == StripTransient(bmStatic) && Confined(r0, data, keys)
    ensures var p := StripTransient(data);
      && (forall k :: k in bmStatic && !IsTransient(k) && k !in keys ==> k in p && p[k] == bmStatic[k])
      && (forall k :: k in p ==> !IsTransient(k) && (k in bmStatic || k in keys))
  {
    forall k | k in bmStatic && !IsTransient(k)
      ensures k in r0 && r0[k] == bmStatic[k]
    {
      assert k in StripTransient(bmStatic);
    }
    forall k | k in r0 && !IsTransient(k)
      ensures k in bmStatic
    {
      assert k in StripTransient(r0);
    }
  }

  /** The persisted record holds the static fields no hook writes, with the
      values the constructor received, plus keys the hooks write, and
      nothing else. */
  lemma PersistedKeys(c: Config, func: Value, args: seq<Value>, kwargs: Record,
                      outcome: Outcome, env: Env)
    requires Invocation(c, func, args, kwargs, outcome, env).persisted.Some?
    ensures var p := Invocation(c, func, args, kwargs, outcome, env).persisted.value;
      && (forall k :: k in c.bmStatic && !IsTransient(k) && k !in HookWrites(c) ==> k in p && p[k] == c.bmStatic[k])
      && (forall k :: k in p ==> !IsTransient(k) && (k in c.bmStatic || k in HookWrites(c)))
  {
    var r0 := InitialRecord(c.bmStatic, func, args, kwargs);
    var pre := PreRun(c, env, r0);
    var post := PostRun(c, env, |c.captureBefore| + 1, pre.data);
    assert Invocation(c, func, args, kwargs, outcome, env).persisted.value == StripTransient(post.data);
    PreRunConfined(c, env, r0);
    PostRunFromConfined(NameOrder.SortedNames(c.attrs.Keys), c, env, |c.captureBefore| + 1, pre.data);
    ConfinedTrans(r0, pre.data, post.data, HookWrites(c), AttrWrites(c.attrs), HookWrites(c));
    InitialRecordStrip(c.bmStatic, func, args, kwargs);
    StripConfined(c.bmStatic, r0, post.data, HookWrites(c));
  }

  /** Pre-run is `_capture_before` followed by `capture_start`: running the
      list with the start hook appended. */
  lemma PreRunOrder(c: Config, env: Env, r: Record, h: Hook)
    requires "capture_start" in c.attrs && c.attrs["capture_start"] == Callable(h)
    ensures PreRun(c, env, r) == RunHooks(c.captureBefore + [h], env, 0, r)
  {
    RunHooksAppend(c.captureBefore, [h], env, 0, r);
    var s := RunHooks(c.captureBefore, env, 0, r);
    assert RunHooks([h], env, |c.captureBefore|, s.data) == HookStep(h, env, |c.captureBefore|, s.data);
  }

  /** When every `capture_*` attribute is callable, post-run is the hooks
      of `PostHooks`, run in order. */
  lemma {:induction false} PostRunDispatch(names: seq<string>, c: Config, env: Env, step: nat, r: Record)
    requires forall n :: n in names ==> n in c.attrs
    requires CapturesCallable(c)
    ensures PostRunFrom(names, c, env, step, r) == RunHooks(PostHooks(names, c), env, step, r)
    decreases |names|
  {
    if names != [] {
      var name := names[0];
      assert name in names;
      assert forall n :: n in names[1..] ==> n in names;
      var rest := PostHooks(names[1..], c);
      if StartsWith(name, CapturePrefix) && c.attrs[name].hook !in c.captureBefore {
        var h := c.attrs[name].hook;
        var s := HookStep(h, env, step, r);
        assert PostHooks(names, c) == [h] + rest;
        assert ([h] + rest)[0] == h && ([h] + rest)[1..] == rest;
        if s.raised.None? {
          PostRunDispatch(names[1..], c, env, step + 1, s.data);
        }
      } else {
        PostRunDispatch(names[1..], c, env, step, r);
      }
    }
  }

  /** The hooks post-run calls are hooks of callable attributes, so they
      write only keys of `AttrWrites`. */
  lemma {:induction false} PostHooksWrites(names: seq<string>, c: Config)
    requires forall n :: n in names ==> n in c.attrs
    ensures WritesAll(PostHooks(names, c)) <= AttrWrites(c.attrs)
    ensures forall h :: h in PostHooks(names, c) ==> h in AttrHooks(c.attrs)
    decreases |names|
  {
    if names != [] {
      var name := names[0];
      assert name in names;
      assert forall n :: n in names[1..] ==> n in names;
      PostHooksWrites(names[1..], c);
      var rest := PostHooks(names[1..], c);
      if StartsWith(name, CapturePrefix) && c.attrs[name].Callable? && c.attrs[name].hook !in c.captureBefore {
        var hs := [c.attrs[name].hook] + rest;
        assert hs[0] == c.attrs[name].hook && hs[1..] == rest;
        HookWritesAttr(c.attrs, name);
      }
    }
  }

  /** A `capture_*` attribute that is not callable makes post-run raise,
      at that attribute or at an earlier hook. */
  lemma {:induction false} PostRunNonCallable(names: seq<string>, c: Config, env: Env, step: nat, r: Record, i: nat)
    requires forall n :: n in names ==> n in c.attrs
    requires i < |names| && StartsWith(names[i], CapturePrefix) && c.attrs[names[i]].NotCallable?
    ensures PostRunFrom(names, c, env, step, r).raised.Some?
    decreases |names|
  {
    assert names[0] in names;
    assert forall n :: n in names[1..] ==> n in names;
    if i > 0 {
      assert names[1..][i - 1] == names[i];
      var name := names[0];
      if StartsWith(name, CapturePrefix) && c.attrs[name].Callable? && c.attrs[name].hook !in c.captureBefore {
        var s := HookStep(c.attrs[name].hook, env, step, r);
        if s.raised.None? {
          PostRunNonCallable(names[1..], c, env, step + 1, s.data, i - 1);
        }
      } else if !StartsWith(name, CapturePrefix) || c.attrs[name].Callable? {
        PostRunNonCallable(names[1..], c, env, step, r, i - 1);
      }
    }
  }

  /** When the hooks before `names[i]` all succeed, a non-callable
      `capture_*` attribute at `names[i]` is what post-run raises, as a
      `ValueError` naming it. */
  lemma {:induction false} PostRunFirstNonCallable(names: seq<string>, c: Config, env: Env, step: nat, r: Record, i: nat)
    requires forall n :: n in names ==> n in c.attrs
    requires i < |names| && StartsWith(names[i], CapturePrefix) && c.attrs[names[i]].NotCallable?
    requires PostRunFrom(names[..i], c, env, step, r).raised.None?
    ensures PostRunFrom(names, c, env, step, r).raised == Some(ValueError(names[i] + " is not callable"))
    decreases i
  {
    if i > 0 {
      var name := names[0];
      assert name in names;
      assert forall n :: n in names[1..] ==> n in names;
      assert names[..i][0] == name;
      assert names[..i][1..] == names[1..][..i - 1];
      assert names[1..][i - 1] == names[i];
      if StartsWith(name, CapturePrefix) && c.attrs[name].Callable? && c.attrs[name].hook !in c.captureBefore {
        var s := HookStep(c.attrs[name].hook, env, step, r);
        PostRunFirstNonCallable(names[1..], c, env, step + 1, s.data, i - 1);
      } else if !StartsWith(name, CapturePrefix) || c.attrs[name].Callable? {
        PostRunFirstNonCallable(names[1..], c, env, step, r, i - 1);
      }
    }
  }

  /** The errors a hook raises are `KeyError` and `AttributeError`. */
  lemma HookStepErrors(h: Hook, env: Env, step: nat, r: Record)
    requires HookStep(h, env, step, r).raised.Some?
    ensures HookStep(h, env, step, r).raised.value.KeyError? || HookStep(h, env, step, r).raised.value.AttributeError?
  {
  }

  /** Post-run raises `ValueError` only for a `capture_*` attribute that is
      not callable, and the message names it. */
  lemma {:induction false} PostRunValueError(names: seq<string>, c: Config, env: Env, step: nat, r: Record)
    requires forall n :: n in names ==> n in c.attrs
    requires PostRunFrom(names, c, env, step, r).raised.Some?
    requires PostRunFrom(names, c, env, step, r).raised.value.ValueError?
    ensures exists n :: (n in names && StartsWith(n, CapturePrefix) && c.attrs[n].NotCallable?
      && PostRunFrom(names, c, env, step, r).raised.value == ValueError(n + " is not callable"))
    decreases |names|
  {
    var name := names[0];
    assert name in names;
    assert forall n :: n in names[1..] ==> n in names;
    if StartsWith(name, CapturePrefix) && c.attrs[name].Callable? && c.attrs[name].hook !in c.captureBefore {
      var s := HookStep(c.attrs[name].hook, env, step, r);
      if s.raised.Some? {
        HookStepErrors(c.attrs[name].hook, env, step, r);
      } else {
        PostRunValueError(names[1..], c, env, step + 1, s.data);
      }
    } else if !StartsWith(name, CapturePrefix) || c.attrs[name].Callable? {
      PostRunValueError(names[1..], c, env, step, r);
    }
  }

  /** With a function under `_func`, callable capture attributes, a
      `capture_start` and an `outfile`, and no hook that overwrites `_func`,
      the wrapper returns what the function returns and re-raises what it
      raises. */
  lemma InvocationPassesThrough(c: Config, func: Value, args: seq<Value>, kwargs: Record,
                                outcome: Outcome, env: Env)
    requires func.Func? || (FunctionName !in c.captureBefore && FunctionName !in AttrHooks(c.attrs))
    requires !c.outfile.Unset?
    requires "capture_start" in c.attrs && CapturesCallable(c) && c.attrs["capture_start"].Callable?
    requires "_func" !in HookWrites(c)
    ensures Invocation(c, func, args, kwargs, outcome, env).result ==
      match outcome
      case Returns(v) => Ok(v)
      case Raises(e) => Err(Raised(e))
  {
    var r0 := InitialRecord(c.bmStatic, func, args, kwargs);
    var h := c.attrs["capture_start"].hook;
    PreRunOrder(c, env, r0, h);
    HookWritesAttr(c.attrs, "capture_start");
    WritesAllAppend(c.captureBefore, [h]);
    assert h in AttrHooks(c.attrs);
    assert forall x :: x in c.captureBefore + [h] ==> x in c.captureBefore || x == h;
    RunHooksSucceeds(c.captureBefore + [h], env, 0, r0);
    var pre := PreRun(c, env, r0);
    PreRunConfined(c, env, r0);
    var names := NameOrder.SortedNames(c.attrs.Keys);
    PostRunDispatch(names, c, env, |c.captureBefore| + 1, pre.data);
    PostHooksWrites(names, c);
    RunHooksSucceeds(PostHooks(names, c), env, |c.captureBefore| + 1, pre.data);
  }

  lemma {:induction false} WritesAllAppend(xs: seq<Hook>, ys: seq<Hook>)
    ensures WritesAll(xs + ys) == WritesAll(xs) + WritesAll(ys)
    decreases |xs|
  {
    if xs == [] {
      assert xs + ys == ys;
    } else {
      assert (xs + ys)[0] == xs[0] && (xs + ys)[1..] == xs[1..] + ys;
      WritesAllAppend(xs[1..], ys);
    }
  }

  lemma StripUpdate(m: Record, k: string, v: Value)
    requires !IsTransient(k)
    ensures StripTransient(m[k := v]) == StripTransient(m)[k := v]
  {
  }

  /** `dir()` of two names lists the lesser first. */
  lemma DirOfTwo(a: string, b: string)
    requires NameOrder.Less(a, b)
    ensures NameOrder.SortedNames({a, b}) == [a, b]
  {
    NameOrder.LessIrreflexive(a);
    var names := [a, b];
    assert forall e :: e in names <==> e in {a, b};
    assert NameOrder.StrictlySorted(names);
    NameOrder.SortedUnique(names, NameOrder.SortedNames({a, b}));
  }

  /** `dir()` of four names in increasing order lists them in that order. */
  lemma DirOfFour(a: string, b: string, c: string, d: string)
    requires NameOrder.Less(a, b) && NameOrder.Less(b, c) && NameOrder.Less(c, d)
    ensures NameOrder.SortedNames({a, b, c, d}) == [a, b, c, d]
  {
    NameOrder.LessTransitive(a, b, c);
    NameOrder.LessTransitive(b, c, d);
    NameOrder.LessTransitive(a, c, d);
    var names := [a, b, c, d];
    assert forall e :: e in names <==> e in {a, b, c, d};
    assert NameOrder.StrictlySorted(names);
    NameOrder.SortedUnique(names, NameOrder.SortedNames({a, b, c, d}));
  }

  /** Every attribute of `m` is callable. */
  predicate AllCallable(m: map<string, Attr>)
  {
    forall n :: n in m ==> m[n].Callable?
  }

  /** Running a list whose head is `h`. */
  lemma RunHooksCons(h: Hook, hs: seq<Hook>, env: Env, step: nat, r: Record)
    ensures RunHooks([h] + hs, env, step, r) ==
      var s := HookStep(h, env, step, r);
      if s.raised.Some? then s else RunHooks(hs, env, step + 1, s.data)
  {
    assert ([h] + hs)[0] == h && ([h] + hs)[1..] == hs;
  }

  /** Post-run, given the `dir()` order of the attributes. */
  lemma PostRunVia(c: Config, env: Env, step: nat, r: Record, names: seq<string>)
    requires NameOrder.SortedNames(c.attrs.Keys) == names && AllCallable(c.attrs)
    ensures PostRun(c, env, step, r) == RunHooks(PostHooks(names, c), env, step, r)
  {
    PostRunDispatch(names, c, env, step, r);
  }

  /** Stripping commutes with adding persistent keys. */
  lemma StripOverride(r: Record, u: Record)
    requires forall k :: k in u ==> !IsTransient(k)
    ensures StripTransient(r + u) == StripTransient(r) + u
  {
  }

  /** Updating after an override is overriding with the updated map. */
  lemma UpdateOverride(m: Record, u: Record, k: string, v: Value)
    ensures (m + u)[k := v] == m + u[k := v]
  {
  }

  /** A post-run that raises nothing, with an `outfile`, persists the
      stripped record. */
  lemma AfterReturnOk(c: Config, env: Env, data: Record, v: Value)
    requires PostRun(c, env, |c.captureBefore| + 1, data).raised.None? && !c.outfile.Unset?
    ensures AfterReturn(c, env, data, v)
         == Call(Ok(v), Some(StripTransient(PostRun(c, env, |c.captureBefore| + 1, data).data)))
  {
  }

  /** An override that sets `k` hides an earlier update of `k`. */
  lemma OverrideHides(r: Record, k: string, x: Value, u: Record)
    requires k in u
    ensures r[k := x] + u == r + u
  {
  }

  /** When pre-run only stamps `start` and post-run overrides the record
      with `u`, the persisted record is the static fields overridden by `u`. */
  lemma RecordFromStamps(c: Config, func: Value, args: seq<Value>, kwargs: Record, v: Value, env: Env,
                         t0: Value, u: Record)
    requires !c.outfile.Unset? && "start" in u && forall k :: k in u ==> !IsTransient(k)
    requires var r1 := InitialRecord(c.bmStatic, func, args, kwargs)["start" := t0];
      && PreRun(c, env, InitialRecord(c.bmStatic, func, args, kwargs)) == Step(r1, None)
      && PostRun(c, env, |c.captureBefore| + 1, r1) == Step(r1 + u, None)
    ensures Invocation(c, func, args, kwargs, Returns(v), env) == Call(Ok(v), Some(StripTransient(c.bmStatic) + u))
  {
    var r0 := InitialRecord(c.bmStatic, func, args, kwargs);
    var r1 := r0["start" := t0];
    assert Invocation(c, func, args, kwargs, Returns(v), env) == AfterReturn(c, env, r1, v);
    AfterReturnOk(c, env, r1, v);
    OverrideHides(r0, "start", t0, u);
    StripOverride(r0, u);
    InitialRecordStrip(c.bmStatic, func, args, kwargs);
  }
}
