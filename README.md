# microbench: the per-call record pipeline and the diff helpers

This Dafny project models the two pieces of logic in `microbench`.

**The `MicroBench` pipeline (`microbench/__init__.py`).** A `MicroBench` object holds:
- the static fields from its keyword-only constructor;
- the `_capture_before` list of hooks;
- the `capture_*` attributes of its class, which `dir()` and `getattr` see;
- the class attribute `outfile`.

The wrapper `__call__(func)` returns `inner`, and each call of `inner` does this, in order:
- builds `bm_data` from the static fields and the transient keys `_func`, `_args` and `_kwargs`;
- runs the pre-run hooks (`_capture_before`, then `capture_start`);
- calls the wrapped function;
- runs every `capture_*` attribute not in `_capture_before`, in `dir()` order;
- deletes the underscore-prefixed keys;
- writes the encoded record followed by a newline;
- returns the function's result.

The model has two layers:
- `BenchSpec.Invocation` says what one call means, as a function of the configuration.
- The `Bench.MicroBench` class does the same steps on a mutable record (`Hooks.BmData`) and an output sink (`Bench.Sink`). Its methods are proved to agree with the functions.

Properties about the persisted record, the hook order, the errors and the pass-through of the result are lemmas in `BenchProps` and `BenchClasses`.

**The diff helpers (`microbench/diff.py`).** These are modelled on an opcode list of the shape `difflib.SequenceMatcher.get_opcodes()` returns. The list is an input constrained by `Opcodes.WellFormed`: its blocks are contiguous, they start at 0, they end at `|a|` and `|b|`, and `equal` blocks relate equal slices. The modules are:
- `Markup`: `_mark_text`, `_mark_span` and `_markup_diff`.
- `Align`: `_align_seqs`.
- `Text`: `str.split(' ')`, `'&nbsp;'.join` and `str.splitlines`.
- `HtmlDiff`: `_html_sidebyside` and `_html_diffs`.

Each loop of the source is a method proved against a function. The functions have these lemmas:
- `Markup.MarkupOps`: length (`MarkupKeepsLength`) and per token (`MarkupTokens`).
- `Align.AlignOps`: equal lengths (`AlignedSameLength`) and reconstruction of both inputs (`AlignRoundTrip`).
- `HtmlDiff.SideBySide`: per row (`SideBySideRow`).
- `HtmlDiff.MarkLines`: length and per line (`MarkLinesAt`).
- `Text.SplitLines`: content (`SplitLinesContent`) and line count (`SplitLinesCount`).

Modules and files:
- `Values` (`values.dfy`): Python values, records and exceptions.
- `NameOrder` (`name_order.dfy`): `str` ordering and `dir()` sorting.
- `IsoFormat` (`iso_format.dfy`): `datetime.isoformat` and its inverse.
- `Hooks` (`hooks.dfy`): capture hooks and the `bm_data` dict.
- `BenchSpec` (`bench_spec.dfy`), `BenchProps` (`bench_props.dfy`), `BenchClasses` (`bench_classes.dfy`) and `Bench` (`bench.dfy`).
- `Opcodes` (`opcodes.dfy`), `Text` (`text.dfy`), `Markup` (`markup.dfy`), `Align` (`align.dfy`) and `HtmlDiff` (`html_diff.dfy`).

## Model

| member | source | states |
|---|---|---|
| Bench.MicroBench.Invoke | microbench/__init__.py:20-34 | `method(bm_data)`: calling a capture method changes the record, and raises, exactly as `HookStep` says for that hook |
| Bench.MicroBench.New | microbench/__init__.py:14-18 | positional arguments raise `ValueError('Only keyword arguments are allowed')`; otherwise a new object whose static fields are exactly the keyword arguments and whose `_capture_before` is empty |
| Bench.MicroBench.FromKeywords | microbench/__init__.py:14-18 | the object holds the keyword arguments as static fields and an empty `_capture_before` |
| Bench.MicroBench.PreRunTriggers | microbench/__init__.py:20-25 | the loop over `_capture_before`, then `capture_start`, leaves the record and the exception `BenchSpec.PreRun` describes |
| BenchProps.PreRunOrder | microbench/__init__.py:20-25 | pre-run is running `_capture_before` with `capture_start`'s hook appended, in list order |
| Bench.MicroBench.PostRunTriggers | microbench/__init__.py:27-34 | the loop over `dir(self)` leaves the record and the exception `BenchSpec.PostRun` describes |
| BenchProps.PostRunDispatch | microbench/__init__.py:27-34 | when every `capture_*` attribute is callable, post-run runs the hooks of the `capture_*` names not in `_capture_before`, in the given name order |
| BenchProps.PostRunNonCallable | microbench/__init__.py:28-32 | a non-callable `capture_*` attribute makes post-run raise |
| BenchProps.PostRunFirstNonCallable | microbench/__init__.py:28-32 | when the hooks before it succeed, the first non-callable `capture_*` attribute is what post-run raises: `ValueError("<name> is not callable")` |
| BenchProps.PostRunValueError | microbench/__init__.py:31-32 | a `ValueError` from post-run names a non-callable `capture_*` attribute: the message is `<name> is not callable` |
| BenchProps.HookStepErrors | microbench/__init__.py:89-95 | the hooks themselves raise only `KeyError` or `AttributeError` |
| BenchProps.PreRunConfined | microbench/__init__.py:20-25 | pre-run only adds or overwrites keys its hooks write |
| BenchProps.PostRunFromConfined | microbench/__init__.py:27-34 | post-run only adds or overwrites keys the attributes' hooks write |
| NameOrder.SortedNames | microbench/__init__.py:28 | `dir()` order: the attribute names, each once, strictly increasing in Python's `str` order |
| NameOrder.SortedUnique | microbench/__init__.py:28 | a strictly sorted list is determined by its elements, so the `dir()` order is unique |
| NameOrder.Dir | microbench/__init__.py:28 | sorting by repeated selection of the least name gives `SortedNames` |
| NameOrder.LessTransitive | microbench/__init__.py:28 | Python's string order is transitive |
| NameOrder.LessTotal | microbench/__init__.py:28 | two distinct names are ordered one way or the other |
| NameOrder.LessCommonPrefix | microbench/__init__.py:28 | a shared prefix such as `capture_` does not change the order of two names |
| Bench.MicroBench.CaptureStart | microbench/__init__.py:36-37 | stores the current clock reading under `start` and changes nothing else |
| Bench.MicroBench.CaptureFinish | microbench/__init__.py:39-40 | stores the current clock reading under `finish` and changes nothing else |
| Hooks.HookStep | microbench/__init__.py:36-95 | only the `MBFunctionCall` hooks can raise; `capture_function_name` succeeds exactly when `_func` holds a function; `capture_function_args_and_kwargs` succeeds exactly when `_args` and `_kwargs` are present |
| Hooks.HookStepConfined | microbench/__init__.py:36-108 | a hook only adds or overwrites the keys it writes |
| Hooks.RunHooksConfined | microbench/__init__.py:20-34 | a list of hooks only adds or overwrites keys its hooks write |
| Hooks.RunHooksAppend | microbench/__init__.py:21-25 | running two hook lists one after the other is running their concatenation, stopping at the first exception |
| Hooks.RunHooksSucceeds | microbench/__init__.py:89-95 | with `_func`, `_args` and `_kwargs` present, `_func` a function unless the list has no function-name hook, and no hook overwriting `_func`, no hook raises |
| Hooks.CaptureFunctionName | microbench/__init__.py:90-91 | stores `_func.__name__` under `function_name`, or raises `KeyError`/`AttributeError` as `HookStep` says |
| Hooks.CaptureFunctionArgsAndKwargs | microbench/__init__.py:93-95 | copies `_args` to `args` and `_kwargs` to `kwargs`, raising `KeyError` at the first missing one, with `args` already written |
| Hooks.CapturePythonVersion | microbench/__init__.py:99-100 | writes the interpreter version under `python_version` |
| Hooks.CaptureHostname | microbench/__init__.py:104-105 | writes the host name under `hostname` |
| Hooks.CaptureOs | microbench/__init__.py:107-108 | writes the platform under `operating_system` |
| Hooks.CaptureConstant | microbench/__init__.py:28-34 | stands for a user-defined `capture_*` method that post-run calls; it has no source of its own and sets one key to one value, leaving the other keys as they were |
| Hooks.BmData.Update | microbench/__init__.py:67 | `bm_data.update(m)`: the entries of `m` override |
| Hooks.BmData.Set | microbench/__init__.py:68-70 | item assignment sets one key and keeps the rest |
| IsoFormat.FormatRoundTrip | microbench/__init__.py:42-45 | the ISO text of a timestamp reads back as the same timestamp |
| IsoFormat.FormatInjective | microbench/__init__.py:42-45 | two timestamps with the same ISO text are equal |
| IsoFormat.Format | microbench/__init__.py:42-45 | the ISO text has 19 characters, or 26 when microseconds are non-zero |
| BenchSpec.JsonSerializer | microbench/__init__.py:42-45 | returns text exactly for a naive datetime, and that text parses back to the datetime; `None` for every other value |
| BenchSpec.StripTransient | microbench/__init__.py:78-80 | keeps exactly the keys not starting with `_`, each with its value |
| Bench.MicroBench.OutputResult | microbench/__init__.py:47-62 | writes the encoded record plus `'\n'`: appended to the file at a `str` path, else to the stream; without an `outfile` attribute it raises `AttributeError` and writes nothing |
| Bench.Sink.Append | microbench/__init__.py:57-59 | appending to a file extends that file's text and leaves the other files and the stream alone |
| Bench.Sink.Write | microbench/__init__.py:60-62 | writing to the stream extends it and leaves the files alone |
| Bench.MicroBench.NewRecord | microbench/__init__.py:66-70 | a fresh `bm_data` holding the static fields and the three transient keys |
| Bench.MicroBench.AfterCall | microbench/__init__.py:76-84 | post-run, stripping and output give the result and the sink state `BenchSpec.AfterReturn` describes |
| Bench.MicroBench.Inner | microbench/__init__.py:64-86 | one call of `inner` returns or raises what `BenchSpec.Invocation` says and writes a line exactly when it persists a record |
| BenchSpec.Invocation | microbench/__init__.py:64-86 | a record is persisted exactly when the call returns normally; then the result is the function's own return value; an exception from the function means no record; no persisted key starts with `_` |
| BenchSpec.AfterReturn | microbench/__init__.py:76-84 | after the function returned `v`, the call either fails with no record or returns `v` and persists a record |
| BenchProps.InvocationPassesThrough | microbench/__init__.py:74-84 | with callable hooks, a function under `_func` whenever some hook captures its name, no hook overwriting `_func` and an `outfile`, the wrapper returns exactly what the function returned, or raises what it raised |
| BenchProps.PersistedKeys | microbench/__init__.py:66-80 | the persisted record has no `_` key; every static field no hook writes is persisted with its constructor value; every other persisted key was written by a hook |
| BenchProps.InitialRecordStrip | microbench/__init__.py:66-80 | stripping the initial `bm_data` leaves the static fields without their `_` keys |
| BenchProps.StripOverride | microbench/__init__.py:79-80 | stripping commutes with adding keys that do not start with `_` |
| BenchProps.RecordFromStamps | microbench/__init__.py:64-86 | when pre-run only stamps `start` and post-run overrides the record with stamps `u`, the persisted record is the static fields overridden by `u` |
| BenchClasses.MicroBenchDirOrder | microbench/__init__.py:28-40 | `dir()` lists `capture_finish` before `capture_start` |
| BenchClasses.MicroBenchPostRun | microbench/__init__.py:15-40 | for a plain `MicroBench`, post-run stamps `finish` and then `start` again, as the second and third clock readings |
| BenchClasses.MicroBenchPreRun | microbench/__init__.py:20-37 | for a plain `MicroBench`, pre-run stamps `start` only |
| BenchClasses.MicroBenchRecord | microbench/__init__.py:15-86 | a plain `MicroBench` persists its static fields plus `finish` (second reading) and `start` (third reading, not the first) |
| BenchClasses.FunctionCallDirOrder | microbench/__init__.py:28-95 | with `MBFunctionCall` mixed in, `dir()` gives `capture_finish`, `capture_function_args_and_kwargs`, `capture_function_name`, `capture_start` |
| BenchClasses.FunctionCallPostHooks | microbench/__init__.py:27-95 | post-run calls finish, args-and-kwargs, function-name and start, in that order |
| BenchClasses.FunctionCallPostRun | microbench/__init__.py:27-95 | post-run for a `MicroBench` with `MBFunctionCall` adds `finish`, `args`, `kwargs`, `function_name` and `start` and raises nothing |
| BenchClasses.FunctionCallRecord | microbench/__init__.py:64-95 | such a class persists its static fields, `finish`, the positional and keyword arguments, the function's name and `start` from `now(4)`, the reading at the fifth hook call (three clock readings in all) |
| Markup.MarkText | microbench/diff.py:11-12 | the result is the red-span opening tag, then the text unchanged, then `</span>` |
| Markup.UnmarkMarkText | microbench/diff.py:11-12 | the red span around a token can be removed again to give back the token |
| Markup.MarkTextInjective | microbench/diff.py:11-12 | distinct tokens give distinct marked tokens |
| Markup.MarkSpan | microbench/diff.py:15-16 | one marked token per input token |
| Markup.MarkTextAt | microbench/diff.py:15-16 | marked token `k` is `_mark_text` of token `k` |
| Markup.UnmarkMarkSpan | microbench/diff.py:15-16 | every marked token unmarks to its input token |
| Markup.MarkupDiff | microbench/diff.py:19-36 | the loop accumulates the marked blocks of the opcodes; it returns them when both outputs are as long as the inputs, else raises `AssertionError` |
| Markup.MarkupKeepsLength | microbench/diff.py:30-35 | with well-formed opcodes and length-preserving marks, `len(out_a) == len(a)` and `len(out_b) == len(b)`, so the assertions never fire |
| Markup.MarkSpanKeepsLength | microbench/diff.py:15-22 | `_mark_span` and the identity default mark preserve length |
| Markup.MarkupTokens | microbench/diff.py:22-35 | with the default marks, a token in an `equal` block is output as it is; a token in any other block is output as its marked form, at its own position on each side |
| Align.AlignBlock | microbench/diff.py:43-45 | each block adds `max(a1-a0, b1-b0)` entries to each side |
| Align.Fill | microbench/diff.py:44-45 | `[fill] * n` has `n` copies of `fill` |
| Align.AlignSeqs | microbench/diff.py:39-47 | the loop accumulates the padded blocks, and the two outputs have equal length |
| Align.AlignedSameLength | microbench/diff.py:46 | the padded outputs have equal length, so the assertion never fires |
| Align.AlignRoundTrip | microbench/diff.py:43-46 | removing the padding rows from `out_a` (or `out_b`) gives back `a` (or `b`) exactly, and every padding row holds `fill` |
| Align.AlignKeepsA | microbench/diff.py:44 | removing the padding rows of the `a` side gives back `a`, block by block |
| Align.AlignKeepsB | microbench/diff.py:45 | removing the padding rows of the `b` side gives back `b`, block by block |
| Align.KeepAppend | microbench/diff.py:44-45 | removing rows distributes over concatenation of the blocks |
| HtmlDiff.ZipLongest | microbench/diff.py:56 | `zip_longest` has as many pairs as the longer side |
| HtmlDiff.ZipLongestAt | microbench/diff.py:56 | pair `k` holds item `k` of each side, or `''` once that side is exhausted |
| HtmlDiff.SideBySideRow | microbench/diff.py:52-59 | the page is the grid header and spacer, the rows in order with row `k` holding line `k` of each side or `''`, then the closing `</div>` |
| HtmlDiff.HtmlSideBySide | microbench/diff.py:50-60 | the loop builds exactly the page `SideBySide` describes |
| HtmlDiff.ConcatMapSplit | microbench/diff.py:56-58 | the rows of the page are the rows before `k`, row `k`, and the rows after it |
| HtmlDiff.MarkLine | microbench/diff.py:71 | the two marked lines have as many words as the lines split at `' '` |
| HtmlDiff.MarkLines | microbench/diff.py:70-73 | one marked line per aligned pair on each side |
| HtmlDiff.AlignedLines | microbench/diff.py:66-70 | the escaped lines of both texts, aligned, have equal length |
| HtmlDiff.MarkLineDiff | microbench/diff.py:71 | `_markup_diff` on the words of a line pair returns `MarkLine`, and its assertions never fire |
| HtmlDiff.MarkAll | microbench/diff.py:69-73 | the loop over aligned pairs collects the joined marked lines `MarkLines` describes |
| HtmlDiff.HtmlDiffs | microbench/diff.py:63-75 | `_html_diffs` returns the page `HtmlDiffsOf` describes, or raises `ImportError` without `html` |
| HtmlDiff.HtmlDiffsRows | microbench/diff.py:63-75 | the call fails exactly when `html` is missing; otherwise row `k` of the page holds aligned line `k` of each text, its words marked and joined with `&nbsp;` |
| HtmlDiff.MarkLinesAt | microbench/diff.py:70-73 | marked line `k` is the `&nbsp;`-joined marked words of aligned pair `k` |
| Text.Split | microbench/diff.py:71 | `s.split(' ')` has at least one piece and no piece contains a space |
| Text.JoinSplit | microbench/diff.py:71-72 | joining the pieces of a split with the separator gives back the string |
| Text.SplitLines | microbench/diff.py:70 | no line contains a line boundary |
| Text.SplitLinesContent | microbench/diff.py:70 | the lines, in order, hold every character of the text except the boundaries |
| Text.SplitLinesCount | microbench/diff.py:70 | one line per boundary, plus one when text follows the last boundary: no lines for empty text, and no empty line after a trailing boundary |
| Opcodes.TilesBounds | microbench/diff.py:30 | every block of well-formed opcodes lies inside `a` and `b` |
| Opcodes.TilesWidth | microbench/diff.py:30 | the block widths add up to `len(a)` and `len(b)` |

## Left out

- BenchSpec.JsonSerializer: only naive datetimes are modelled. The `+HH:MM` offset that `isoformat()` writes for an aware datetime, and the `isoformat` of a `datetime` subclass such as `pandas.Timestamp`, are not captured; such values can only be an `Object`, for which the model returns `None`.
- `json.dumps` is not modelled. The encoder is the environment's opaque `encode` function. `BenchSpec.JsonSerializer` states what the `default` hook returns, not how the encoder uses it.
- The Python 2 branch of `output_result` (`bm_str.decode('utf8')`) is not modelled. Text is a sequence of characters.
- File and stream I/O and the `O_APPEND` atomicity claim are not modelled. They are operating-system behaviour and concurrency. `Bench.Sink` records the text each file and the stream receive.
- `datetime.now()` is the environment function `now(k)`, indexed by the hook call number within one invocation. No ordering between readings is assumed, because the code establishes none.
- The foreign calls in the `MBPythonVersion` and `MBHostInfo` hooks are environment strings: `platform.python_version()`, `socket.gethostname()` and `sys.platform`.
- Hooks.Hook: user-defined capture methods are modelled only as `Constant`, which writes one key and never reads the record or raises. A user hook that reads `bm_data` or raises is not captured, so `BenchProps.HookStepErrors`, `BenchProps.PostRunValueError`, `Hooks.RunHooksSucceeds` and `BenchProps.InvocationPassesThrough` hold for this hook set, not for arbitrary user code.
- BenchSpec.InitialRecord and `BenchClasses.FunctionCallRecord`: Python stores the caller's own `args` tuple and `kwargs` values, and the constructor's keyword values, by reference. Values here are immutable, so a wrapped function that mutates its arguments or a static value is not captured; the persisted `args` and `kwargs` are the values at call time.
- The wrapped function is an `Outcome`: a return value or an exception. Its arguments are recorded but never interpreted.
- A `_capture_before` entry is compared with a `capture_*` attribute by its hook identity. Python compares bound methods.
- `difflib.SequenceMatcher` is not modelled. Its opcodes are an input that satisfies `Opcodes.WellFormed`. `HtmlDiff.Matches` states that every matcher result is well formed. The junk heuristics (`isjunk`, `autojunk`) have no effect in the model.
- `html.escape` is a parameter of `HtmlDiff.HtmlDiffs`. Whether the `html` module imported is a boolean.
- `_show_diffs` and `envdiff` (IPython display, pandas, JSON reformatting) are not part of this model.
- `MBLineProfiler`, `MBNvidiaSmi`, `MBHostCpuCores`, `MBGlobalPackages`, `capture_versions`, `env_vars`, `get_results` and the `start_time`/`finish_time` keys appear only in the tests. There is no source for them, so they are not part of this model.
- `setup.py` and the versioneer `_version` module are packaging and are not part of this model.
- `Text.SplitLines` follows Python's `str.splitlines` boundary set, with `\r\n` as one boundary. Other Unicode details of Python strings (surrogates, normalisation) are not modelled.
- The right-hand `<pre>` tag of `_html_sidebyside` is kept byte for byte as the source writes it: `<pre style="margin-top:0";padding:0>`, with the quote before `;padding:0`.
