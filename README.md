# Data-science pipeline core, modelled in Dafny

This project models four pieces of the `from_mwt_ds/DataScience` Python code base and proves properties of them.

- **The incremental file pipeline** (`pipeline/core.py`).
  - An `Execution` transforms one input file into one output file. It skips the work when a sidecar file `<output>.size` holds the input's current size.
  - A `Fileset` builds one execution per tracked path and runs them in order, or in chunks on a thread pool, collecting the output paths.
  - The filesystem is a `FileSystem` class over a map from paths to contents. `FileSizeHasher.evaluate` is the content length.
  - Each state-changing operation is a method proved equal to a specification function on `FsState` snapshots. The lemmas are stated on those functions.
- **The VW simulator** (`vw_sim/core.py`, `vw_sim/example.py`, `vw_sim/simulation.py`).
  - Nested feature dictionaries are flattened into namespaces and rendered as a Vowpal Wabbit text line.
  - Feature templates whose leaves may be generators are evaluated at an example index.
  - Regression examples and simulations are built from them.
- **Per-slot estimators for conditional contextual bandits** (`ccb/estimators.py`).
  - The inner contextual-bandit estimator is the sequence of samples it has been given. `add` appends a sample and `+` concatenates.
- **Decision-log processing** (`ccb/dsjson/processor.py`, `ccb/dsjson/predictions.py`, `cb/dsjson/predictions.py`).
  - Parsed JSON lines are restructured with `ChainMap` precedence (the first map that holds a key wins).
  - They are turned into per-action or per-outcome rows, or into column tables of predictions.
  - `json.loads` and `json.dumps` are parameters of the model.

Python exceptions are values: a `Result` is `Ok(value)` or `Err(error)`, and `PyError` names the exception class. Insertion-ordered Python dicts are association lists (module `Dicts`). Lazy `filter`/`map` chains are taken as consumed in order, so the first element that raises ends the iteration (`Wrappers.Collect`).

Modules, one per file:

- `Wrappers`, `Text` and `Dicts` hold the Python semantics the others share: exceptions, `str(int)`, `int(str)`, `str.join`, dict assignment and `ChainMap`.
- `Pipeline` models `pipeline/core.py`.
- `VwCore`, `VwExample` and `VwSimulation` model `vw_sim`.
- `CcbEstimators` models `ccb/estimators.py`.
- `DsJson` holds the shared decision-log pieces: JSON values, `json_load`, filter chains, indexing and arithmetic on JSON values, and prediction tables.
- `CcbProcessor`, `CcbPredictions` and `CbPredictions` model the three decision-log files.

Three quirks of the source are modelled as written:

- **Late-bound filter closures.** The filter chains build `filter(lambda l: f(l), lines)` in a loop. The lambdas all see the last `f`, so every layer applies the last filter (`DsJson.ApplyFilters`).
- **`Fileset.init` with one process** resets `files` but appends to `_files`.
- **Zero-byte inputs are never in sync.** Their size is falsy.

## Model

| member | source | states |
|---|---|---|
| Wrappers.Collect | from_mwt_ds/DataScience/ccb/dsjson/processor.py:87 | Consuming a lazy map in order succeeds exactly when every element does. It yields the elements' values in order. An error is that of some element. |
| Wrappers.CollectFirstErr | from_mwt_ds/DataScience/ccb/dsjson/processor.py:87 | When every element before `i` succeeds and element `i` raises, the iteration raises element `i`'s error. |
| Text.ParseIntOfIntToString | from_mwt_ds/DataScience/pipeline/core.py:32-39 | `int(str(i)) == i` for every integer: the size written to the sidecar reads back. |
| Text.Join | from_mwt_ds/DataScience/vw_sim/core.py:13 | `sep.join([x]) == x`. |
| Text.JoinAppend | from_mwt_ds/DataScience/vw_sim/core.py:13 | Joining `a + b` is joining `a`, the separator, then joining `b`. |
| Dicts.AssignGet | from_mwt_ds/DataScience/vw_sim/core.py:30 | After `d[k] = v`, `d[k]` is `v` and every other key reads as before. |
| Dicts.ChainMapGet | from_mwt_ds/DataScience/ccb/dsjson/processor.py:45 | `dict(ChainMap(*ms))` answers each key as the first map holding it does, and holds no key twice. |
| Pipeline.SidecarPath | from_mwt_ds/DataScience/pipeline/core.py:35 | The sidecar path extends the output path. |
| Pipeline.Process | from_mwt_ds/DataScience/pipeline/core.py:95-97 | There is one execution per path, in order. Execution `i` has index `i` and the path as input. Its output is `path_gen(path)`, or `path + '.' + name` by default. All executions share the reader, processor and force flag. |
| Pipeline.NeedsRunRule | from_mwt_ds/DataScience/pipeline/core.py:25-45 | `run` skips exactly when the force flag is off, the output exists, the input is non-empty and the sidecar holds its size. It raises exactly when it must stat a missing input. The force flag always runs. |
| Pipeline.EmptyInputNeverInSync | from_mwt_ds/DataScience/pipeline/core.py:25-28 | A zero-byte input is never in sync, whatever the sidecar holds. |
| Pipeline.RunEffects | from_mwt_ds/DataScience/pipeline/core.py:44-48 | `run` never changes a file. When it works, it adds the output's parent directory. A missing input raises `FileNotFoundError`. Otherwise an exception of the reader or of the transform is raised as is. Without one, `run` returns the transform's result on what the reader read. When it skips, it changes nothing and returns `None`. Without the force flag, an existing output and a missing input make the sync check raise `FileNotFoundError` for the input, and nothing changes. |
| Pipeline.StepFailure | from_mwt_ds/DataScience/pipeline/core.py:70-74 | A step raises exactly when `run` raises or the writer raises on a non-`None` result, and with that exception. `close` is then not reached, so no file has changed. |
| Pipeline.CloseEffects | from_mwt_ds/DataScience/pipeline/core.py:30-52 | `close` overwrites only the sidecar, with `str(size)`, and `_load_hash` then reads that size back. It returns the output path exactly when the output exists, otherwise `None`. |
| Pipeline.RerunAfterCloseSkips | from_mwt_ds/DataScience/pipeline/core.py:28-45 | After `close` on a non-empty input whose output exists, an unforced `run` returns `None` and changes nothing. |
| Pipeline.SecondStepSkips | from_mwt_ds/DataScience/pipeline/core.py:70-74 | When a step completed and produced output for a non-empty input, a second unforced step skips the work, reports the same output and leaves the filesystem unchanged. |
| Pipeline.BatchOutputsInOrder | from_mwt_ds/DataScience/pipeline/core.py:82-91 | A batch reports outputs for a prefix of the executions, in execution order. Entry `i` is `None` or execution `i`'s output. The batch covers every execution exactly when nothing raised. |
| Pipeline.BatchStopsAtError | from_mwt_ds/DataScience/pipeline/core.py:86-87 | Once an execution raises, the later executions are not run. |
| Pipeline.ChunkSize | from_mwt_ds/DataScience/pipeline/core.py:91 | The chunk size `starmap` uses is `len / (4 * procs)` rounded up, and 0 for no executions. With at most four executions per worker it is 1. |
| Pipeline.PoolAgreesWithBatch | from_mwt_ds/DataScience/pipeline/core.py:84-91 | The pool reports the same exception as the sequential loop and at least the outputs the loop reports. When nothing raises, the pool leaves exactly what the loop leaves: outputs, files and directories. |
| Pipeline.PoolUnitChunks | from_mwt_ds/DataScience/pipeline/core.py:89-91 | With chunks of one, an exception does not stop the executions after it. Each runs from the filesystem the one before it left, and the first exception is the one reported. |
| Pipeline.DefaultOutputInjective | from_mwt_ds/DataScience/pipeline/core.py:96 | The default output path determines the input path. |
| Pipeline.DefaultOutputsDistinct | from_mwt_ds/DataScience/pipeline/core.py:96 | With the default path generator, distinct inputs get distinct outputs. |
| Pipeline.FileSystem.Size | from_mwt_ds/DataScience/pipeline/core.py:13-14 | `FileSizeHasher.evaluate` is the file's size, or a `FileNotFoundError` for a missing file. |
| Pipeline.FileSystem.Unlink | from_mwt_ds/DataScience/pipeline/core.py:101 | `unlink` removes exactly the path. It raises, changing nothing, when the path is absent. |
| Pipeline.LoadHashOf | from_mwt_ds/DataScience/pipeline/core.py:34-42 | Equals `LoadHash`: the integer in the sidecar, or `None` when the sidecar is missing or does not parse. It never raises. |
| Pipeline.IsInSync | from_mwt_ds/DataScience/pipeline/core.py:25-28 | Equals `InSync`: the input's size and the stored value are both non-zero and equal. |
| Pipeline.Run | from_mwt_ds/DataScience/pipeline/core.py:44-48 | The result and the new filesystem are those of `RunSpec`, whose properties are `RunEffects` and `NeedsRunRule`. |
| Pipeline.Close | from_mwt_ds/DataScience/pipeline/core.py:50-52 | The result and the new filesystem are those of `CloseSpec`, whose properties are `CloseEffects`. |
| Pipeline.Fileset.constructor | from_mwt_ds/DataScience/pipeline/core.py:60-64 | The tracked paths, reader, writer and `type` are those given. |
| Pipeline.Fileset.Read | from_mwt_ds/DataScience/pipeline/core.py:66-67 | `read(i)` raises `IndexError` when `i` is not a valid Python index. For a tracked path it is the reader's result on `i` and the file, with the reader's own exception passed through, or `FileNotFoundError` when the file is missing. |
| Pipeline.Fileset.GetItem | from_mwt_ds/DataScience/pipeline/core.py:103-105 | `fs[i]` is the `i`-th tracked entry, counting from the end for a negative `i`. It raises `IndexError` outside `-n .. n-1`. |
| Pipeline.Fileset.Slice | from_mwt_ds/DataScience/pipeline/core.py:103-107 | `fs[lo:hi]` raises `TypeError` exactly when the Fileset has no `type`. Otherwise it is a new Fileset of the same format over the clamped slice. |
| Pipeline.Fileset.ProcessExecution | from_mwt_ds/DataScience/pipeline/core.py:69-80 | Runs, writes a non-`None` result to the output and closes, as `StepSpec`. An exception of `run` or of the writer propagates before `close` and before `on_step` (`StepFailure`). Progress gets exactly one `on_step` when the step completes. |
| Pipeline.Fileset.RunInOrder | from_mwt_ds/DataScience/pipeline/core.py:85-87 | The sequential loop, which the pool also runs on each chunk, gives the outputs in execution order and stops at the first exception. There is one `on_step` per output. |
| Pipeline.Fileset.RunPooled | from_mwt_ds/DataScience/pipeline/core.py:89-91 | The pool's `starmap` equals `PoolSpec`: every chunk runs, each stopping at its own first exception, and the first exception in chunk order is reported. There is one `on_step` per output. |
| Pipeline.Fileset.Init | from_mwt_ds/DataScience/pipeline/core.py:82-93 | `on_start(len(executions))` is called once, and `on_finish` once on success. `files` is reset to `[]`. One process appends the outputs to the existing `_files` and raises the first exception. A pool of `procs` workers runs every chunk of `ChunkSize(len, procs)` executions, even after an exception. On success `_files` becomes the outputs; on an exception `_files` is unchanged. Fewer than one process raises `ValueError`. |
| Pipeline.Delete | from_mwt_ds/DataScience/pipeline/core.py:99-101 | Unlinks the paths in turn. It succeeds exactly when all are present and distinct, and then removes exactly them. Any file removed is one of the paths; remaining files keep their contents. |
| VwCore.FlatTextFails | from_mwt_ds/DataScience/vw_sim/core.py:5-13 | `_flat_2_text` raises exactly when some value is a list, and then with `NotImplementedError`. |
| VwCore.FlatTextSingle | from_mwt_ds/DataScience/vw_sim/core.py:6-12 | A string feature renders as `k=v`, any other scalar as `k:v`. |
| VwCore.FlatTextAppend | from_mwt_ds/DataScience/vw_sim/core.py:13 | Items render in dictionary order, separated by single spaces. |
| VwCore.Namespaces | from_mwt_ds/DataScience/vw_sim/core.py:21-33 | The in-place loop equals the recursive definition `NsOf`. |
| VwCore.StoreLeaf | from_mwt_ds/DataScience/vw_sim/core.py:28-30 | The namespace is created when missing, then the feature is assigned in it. |
| VwCore.NamespacesLookup | from_mwt_ds/DataScience/vw_sim/core.py:21-30 | For every (namespace, feature) pair, the flattened dict holds the value of the last leaf met with that feature directly under that namespace. Top-level leaves go under `''`. |
| VwCore.NamespacesPresent | from_mwt_ds/DataScience/vw_sim/core.py:25-30 | A namespace is present exactly when some leaf lies directly under it, so empty nested dicts add nothing. |
| VwCore.NamespacesFlat | from_mwt_ds/DataScience/vw_sim/core.py:23-30 | No namespace holds a dictionary value. |
| VwCore.NamespacesFail | from_mwt_ds/DataScience/vw_sim/core.py:31-32 | `namespaces` raises exactly for a list root, with `NotImplementedError`. |
| VwCore.ScalarFeaturesTxt | from_mwt_ds/DataScience/vw_sim/core.py:39-41 | A non-empty dict of scalars with distinct keys renders as `' ' + flat text + ' '`: the single namespace `''`. |
| VwCore.EvalNode | from_mwt_ds/DataScience/vw_sim/core.py:65-86 | The loop that builds result dicts and lists equals `Eval`. |
| VwCore.EvalMatches | from_mwt_ds/DataScience/vw_sim/core.py:65-85 | Evaluation preserves shape. Dicts keep the same keys in the same order and lists keep their lengths. Generator leaves become `f(i)`; other leaves are unchanged. |
| VwCore.EvalEmbed | from_mwt_ds/DataScience/vw_sim/core.py:65-86 | A tree without generators evaluates to itself. `_eval` succeeds exactly on a dict or list root. |
| VwCore.ExampleFactoryGet | from_mwt_ds/DataScience/vw_sim/core.py:98-100 | `get(i)` raises `ValueError` exactly for a root that is neither dict nor list. Otherwise the example holds the features evaluated at `i`, wrapped in `Features`, and the label `label(features, i)`. |
| VwExample.RegressionTxt | from_mwt_ds/DataScience/vw_sim/example.py:7-8 | `txt` is a list of exactly one line. It raises exactly when the features' text does, with the same error. |
| VwExample.RegressionDsjson | from_mwt_ds/DataScience/vw_sim/example.py:10-12 | `dsjson` always raises `NotImplementedError`. |
| VwExample.RegressionLine | from_mwt_ds/DataScience/vw_sim/example.py:8 | The line is `str(label) + ' |'` followed by exactly `Features(features).txt`. |
| VwExample.RegressionScalarLine | from_mwt_ds/DataScience/vw_sim/example.py:8 | With a dict of scalar features, the line is `label + ' | ' + flat text + ' '`. |
| VwExample.RegressionListFeatures | from_mwt_ds/DataScience/vw_sim/example.py:8 | A list as features makes `txt` raise `NotImplementedError`. |
| VwExample.FactoryLine | from_mwt_ds/DataScience/vw_sim/core.py:98-100 | A generated example's line starts with the text of the label computed from its own features. |
| VwSimulation.Run | from_mwt_ds/DataScience/vw_sim/simulation.py:11-14 | `run(gen, count)` has exactly `max(count, 0)` examples, example `i` being `gen.get(i)`. It raises exactly when some `gen.get(i)` does, with that error. |
| VwSimulation.Txt | from_mwt_ds/DataScience/vw_sim/simulation.py:19-21 | One line per example. |
| VwSimulation.TxtOk | from_mwt_ds/DataScience/vw_sim/simulation.py:19-21 | The text raises exactly when some example's text does. |
| VwSimulation.TxtLines | from_mwt_ds/DataScience/vw_sim/simulation.py:19-21 | Line `i` is example `i`'s line. The text raises exactly when some example's text does. |
| VwSimulation.TxtAppend | from_mwt_ds/DataScience/vw_sim/simulation.py:19-21 | The text of `a + b` is the text of `a` followed by the text of `b`. |
| VwSimulation.Dsjson | from_mwt_ds/DataScience/vw_sim/simulation.py:23-25 | One entry per example, in order, each raising `NotImplementedError` when consumed. |
| VwSimulation.RunTxt | from_mwt_ds/DataScience/vw_sim/simulation.py:14-21 | A generated simulation's line `i` is the line of `gen.get(i)`, for `count` lines. |
| CcbEstimators.FirstSlotEstimator.constructor | from_mwt_ds/DataScience/ccb/estimators.py:5-6 | Wraps the given inner estimator. |
| CcbEstimators.FirstSlotEstimator.Add | from_mwt_ds/DataScience/ccb/estimators.py:8-9 | Forwards exactly `(r[0], p_log[0], p[0], n)` to the inner estimator. An empty list raises `IndexError` and adds nothing. |
| CcbEstimators.FirstSlotEstimator.Plus | from_mwt_ds/DataScience/ccb/estimators.py:11-12 | A fresh estimator around the sum of the two inner estimators. |
| CcbEstimators.FirstSlotEstimator.Get | from_mwt_ds/DataScience/ccb/estimators.py:14-15 | `get` returns the inner estimator's `get` unchanged. |
| CcbEstimators.CbEstimator.constructor | from_mwt_ds/DataScience/ccb/estimators.py:18-20 | A new estimator has no slots. |
| CcbEstimators.CbEstimator.Add | from_mwt_ds/DataScience/ccb/estimators.py:22-24 | The `setdefault` loop keeps the slot-key invariant and equals `AddSpec`, whose properties are `AddKeys` and `AddSlots`. |
| CcbEstimators.CbEstimator.Plus | from_mwt_ds/DataScience/ccb/estimators.py:26-36 | A fresh estimator whose slots are `PlusSpec`: the keys of the operand with more slots (on a tie, `other`), each slot combining both operands' estimators. The result keeps the slot-key invariant, so `add` can be called on it. Its other properties are `PlusTotal`. |
| CcbEstimators.CbEstimator.Get | from_mwt_ds/DataScience/ccb/estimators.py:38-51 | Equals `GetSpec`. With `weights`, it is the sum over the slots in key order of weight times the slot's inner `get` (`WeightedSum`). Without weights it is the inner `get` of the selected slots combined (`SelectSpec`). There, `slots=None` raises and `slots=[]` combines every slot in key order. Otherwise the listed slots are combined in order, and the first missing key raises `KeyError`. |
| CcbEstimators.WeightedSumOk | from_mwt_ds/DataScience/ccb/estimators.py:39-43 | `get(weights=w)` succeeds exactly when every slot's inner `get` does, whatever the weights. |
| CcbEstimators.WeightedSumFirstError | from_mwt_ds/DataScience/ccb/estimators.py:39-43 | `get(weights=w)` raises the exception of the first slot whose inner `get` raises. |
| CcbEstimators.AddKeys | from_mwt_ds/DataScience/ccb/estimators.py:22-24 | `add` keeps the slot keys `0 .. m-1`. It fails exactly when `p_log` or `p` is shorter than `r`. On success there are `max(m, len(r))` slots. |
| CcbEstimators.AddSlots | from_mwt_ds/DataScience/ccb/estimators.py:23-24 | On success slot `s < len(r)` gains exactly `(r[s], p_log[s], p[s], n)`; every other slot is unchanged. |
| CcbEstimators.PlusTotal | from_mwt_ds/DataScience/ccb/estimators.py:26-36 | The sum keeps the key invariant and has as many slots as the larger operand. It neither loses nor duplicates a sample. |
| CcbEstimators.SelectAll | from_mwt_ds/DataScience/ccb/estimators.py:45-50 | `get(slots=[])` succeeds and combines exactly the samples of all slots. |
| CcbEstimators.CombineOk | from_mwt_ds/DataScience/ccb/estimators.py:48-49 | `get(slots=S)` succeeds exactly when every key of `S` is a slot. |
| CcbEstimators.CombineKeys | from_mwt_ds/DataScience/ccb/estimators.py:48-49 | Combining slots `0 .. m-1` yields exactly their samples. |
| CcbEstimators.ValidLookup | from_mwt_ds/DataScience/ccb/estimators.py:24 | Under the key invariant, slot `k` sits at position `k` and is absent beyond the last slot. |
| CcbEstimators.ValidAssign | from_mwt_ds/DataScience/ccb/estimators.py:30-34 | Assigning slot `k <= m` replaces position `k` or appends slot `m`, keeping the invariant. |
| CcbEstimators.MergedAll | from_mwt_ds/DataScience/ccb/estimators.py:29-34 | The two loops of `__add__` end with `PlusSpec`. |
| DsJson.RemoveSoh | from_mwt_ds/DataScience/ccb/dsjson/predictions.py:10 | `line.replace('\x01', '')` leaves no `\x01`, and a character other than `\x01` occurs in the result exactly when it occurs in the line. |
| DsJson.RemoveSohAppend | from_mwt_ds/DataScience/ccb/dsjson/predictions.py:10 | The replacement drops a single `\x01`, keeps any other single character, and distributes over concatenation. So the other characters keep their order and their count. |
| DsJson.JsonLoad | from_mwt_ds/DataScience/ccb/dsjson/predictions.py:6-10 | `json_load` succeeds exactly when the line, or the line without `\x01`, parses. A line that parses gives its own value. A failure is `ValueError`. |
| DsJson.JsonLoadClean | from_mwt_ds/DataScience/cb/dsjson/predictions.py:6-10 | On a line without `\x01` the retry changes nothing. |
| DsJson.Filter | from_mwt_ds/DataScience/ccb/dsjson/processor.py:85 | `filter` keeps only accepted lines of the input. |
| DsJson.FilterKeeps | from_mwt_ds/DataScience/ccb/dsjson/processor.py:85 | Every accepted line is kept. |
| DsJson.FilterAppend | from_mwt_ds/DataScience/ccb/dsjson/processor.py:85 | Filtering works line by line, so it preserves order. |
| DsJson.FilterTwice | from_mwt_ds/DataScience/ccb/dsjson/processor.py:84-85 | Applying the same filter again removes nothing more. |
| DsJson.ApplyFiltersLast | from_mwt_ds/DataScience/ccb/dsjson/processor.py:84-85 | The filter chain keeps exactly the lines the last filter accepts, in order. An empty list keeps every line. |
| DsJson.Field | from_mwt_ds/DataScience/ccb/dsjson/predictions.py:29-32 | `o[k]` succeeds exactly for a dict holding `k`. Otherwise it raises `KeyError(k)` on a dict and `TypeError` on anything else. |
| DsJson.FieldOr | from_mwt_ds/DataScience/ccb/dsjson/processor.py:17-21 | `o.get(k, d)` is `d` for a dict without `k` and `o[k]` for a dict with it. Only a dict has `get`. |
| DsJson.First | from_mwt_ds/DataScience/ccb/dsjson/predictions.py:30-31 | `o[0]` is the first item of a non-empty list, or the first character of a non-empty string. Anything else raises. |
| DsJson.Elements | from_mwt_ds/DataScience/ccb/dsjson/predictions.py:29 | Iteration works on lists, dicts and strings; a list yields its items. |
| DsJson.Len | from_mwt_ds/DataScience/ccb/dsjson/predictions.py:16 | `len(o)` is the number of items iteration visits. |
| DsJson.Negate | from_mwt_ds/DataScience/ccb/dsjson/predictions.py:32 | `-o` succeeds exactly on numbers and booleans, giving the negated number. |
| DsJson.Reciprocal | from_mwt_ds/DataScience/cb/dsjson/predictions.py:16 | `1 / len(o)` succeeds exactly for a non-empty sized value, giving `x` with `x * len == 1`. |
| DsJson.Times | from_mwt_ds/DataScience/ccb/dsjson/predictions.py:17 | `o * int(b)` scales a number by 0 or 1; `o * 1` is a string or list unchanged. |
| DsJson.Weight | from_mwt_ds/DataScience/ccb/dsjson/predictions.py:38 | `n` is 1 when `pdrop` is absent. |
| DsJson.WeightInverse | from_mwt_ds/DataScience/cb/dsjson/predictions.py:31 | With `pdrop = x`, `n * (1 - x) == 1`. `x == 1` raises `ZeroDivisionError`. For `0 <= x < 1`, `n >= 1`. |
| DsJson.EmptyTable | from_mwt_ds/DataScience/ccb/dsjson/predictions.py:46-48 | The result dict starts with every column, one per baseline included, empty. |
| DsJson.AddRowShape | from_mwt_ds/DataScience/ccb/dsjson/predictions.py:33-41 | Appending a row keeps all columns equally long and grows them by one. The new last row is the appended one; earlier rows are unchanged. |
| DsJson.BaselineValues | from_mwt_ds/DataScience/cb/dsjson/predictions.py:33-34 | Every baseline, in dict order, applied to the parsed decision. It succeeds exactly when each baseline does. |
| DsJson.EvalBaselines | from_mwt_ds/DataScience/ccb/dsjson/predictions.py:40-41 | The baseline loop equals `BaselineValues`. |
| DsJson.Tabulate | from_mwt_ds/DataScience/ccb/dsjson/predictions.py:46-50 | The table is rectangular, with one row per line. |
| DsJson.TabulateRows | from_mwt_ds/DataScience/cb/dsjson/predictions.py:39-43 | Row `k` is line `k`'s row. The table fails exactly when some line's row does. |
| CcbPredictions.RandomBaselineSpec | from_mwt_ds/DataScience/ccb/dsjson/predictions.py:16 | `random` gives one entry per outcome, `x` with `x * len(o['_a']) == 1`. |
| CcbPredictions.Baseline1OldSpec | from_mwt_ds/DataScience/ccb/dsjson/predictions.py:17 | `baseline1_old` gives one entry per outcome: `_p[0]` when `_a[0] == i`, else 0. |
| CcbPredictions.Baseline1OldEntrySpec | from_mwt_ds/DataScience/ccb/dsjson/predictions.py:17 | One outcome's entry is `_p[0]` when `_a[0]` equals its index, else 0. |
| CcbPredictions.OutcomeColumns | from_mwt_ds/DataScience/ccb/dsjson/predictions.py:29-32 | `a`, `p` and `r` have one entry per outcome, built from that outcome. They fail exactly when some outcome does, with its error. |
| CcbPredictions.RowOutcomes | from_mwt_ds/DataScience/ccb/dsjson/predictions.py:29-35 | A row's `a`, `p` and `r` hold, per outcome in order, `_a[0]`, `_p[0]` and `-_label_cost`. |
| CcbPredictions.OutcomeEntriesSpec | from_mwt_ds/DataScience/ccb/dsjson/predictions.py:30-32 | An outcome's entries are its `_a[0]`, `_p[0]` and `-_label_cost`. |
| CcbPredictions.RowScalars | from_mwt_ds/DataScience/ccb/dsjson/predictions.py:37-41 | A row holds the timestamp, the weight `n` and one entry per baseline, in baseline order. |
| CcbPredictions.Predictor.constructor | from_mwt_ds/DataScience/ccb/dsjson/predictions.py:20-22 | `None` keeps the default filters and baselines; any other value, even empty, replaces them. |
| CcbPredictions.Predictor.DecisionToPrediction | from_mwt_ds/DataScience/ccb/dsjson/predictions.py:24-41 | Appends exactly the line's row to every column, or raises the row's error. |
| CcbPredictions.Predictor.Predict | from_mwt_ds/DataScience/ccb/dsjson/predictions.py:43-51 | The loop equals `Tabulate` over the filtered lines. |
| CcbPredictions.PredictRows | from_mwt_ds/DataScience/ccb/dsjson/predictions.py:43-51 | There is one row per line the last filter accepts, in input order, and all columns have equal length. It raises exactly when one of those lines does. |
| CbPredictions.RandomBaselineSpec | from_mwt_ds/DataScience/cb/dsjson/predictions.py:16 | `random` is `x` with `x * len(obj['a']) == 1`. It succeeds exactly for a non-empty `a`. |
| CbPredictions.Baseline1Spec | from_mwt_ds/DataScience/cb/dsjson/predictions.py:17 | `baseline1` is 1 exactly when `_labelIndex == 0`, else 0. |
| CbPredictions.RowOfSpec | from_mwt_ds/DataScience/cb/dsjson/predictions.py:26-28 | A row's `a` and `p` are `_labelIndex` and `_label_probability`, and its `r` is `-c` for the numeric cost `c = _label_cost`. |
| CbPredictions.RowScalars | from_mwt_ds/DataScience/cb/dsjson/predictions.py:30-34 | A row holds the timestamp, the weight `n` and one entry per baseline, in baseline order. |
| CbPredictions.Predictor.constructor | from_mwt_ds/DataScience/cb/dsjson/predictions.py:20-22 | `None` keeps the default filters and baselines; any other value, even empty, replaces them. |
| CbPredictions.Predictor.DecisionToPrediction | from_mwt_ds/DataScience/cb/dsjson/predictions.py:24-34 | Appends exactly the line's row to every column, or raises the row's error. |
| CbPredictions.Predictor.Predict | from_mwt_ds/DataScience/cb/dsjson/predictions.py:36-44 | The loop equals `Tabulate` over the filtered lines. |
| CbPredictions.PredictRows | from_mwt_ds/DataScience/cb/dsjson/predictions.py:36-44 | There is one row per line the last filter accepts, in input order, and all columns have equal length. It raises exactly when one of those lines does. |
| CcbProcessor.Group | from_mwt_ds/DataScience/ccb/dsjson/processor.py:45 | `self.processors[key]` succeeds exactly for a present group. A missing group raises `KeyError(key)`. |
| CcbProcessor.DefaultTopSpec | from_mwt_ds/DataScience/ccb/dsjson/processor.py:15-18 | The default top processor has the keys `Timestamp`, `_skipLearn` and `pdrop`, in that order. `Timestamp` is the line's value. A `_skipLearn` or `pdrop` the line holds is carried over; otherwise `_skipLearn` defaults to `False` and `pdrop` to `0.0`. |
| CcbProcessor.DefaultOutcomeSpec | from_mwt_ds/DataScience/ccb/dsjson/processor.py:23-27 | The default outcome processor succeeds exactly on a dict with the four fields. It keeps exactly `_label_cost`, `_id`, `_a` and `_p`, with their values. |
| CcbProcessor.Merge3FirstWins | from_mwt_ds/DataScience/ccb/dsjson/processor.py:50 | When processors produce the same key, the earliest processor's value wins. |
| CcbProcessor.GroupSpec | from_mwt_ds/DataScience/ccb/dsjson/processor.py:48-58 | There is one merged dict per item, in order; item `i`'s comes from the group's processors applied to `(i, o, parsed)`. No items means no group lookup. |
| CcbProcessor.FillGroup | from_mwt_ds/DataScience/ccb/dsjson/processor.py:48-50 | Filling the preallocated list item by item equals `GroupSpec`. |
| CcbProcessor.Load | from_mwt_ds/DataScience/ccb/dsjson/processor.py:8-12 | `json_load` succeeds exactly when the line parses, or else its UTF-8 re-encoding parses. A line that parses gives its own value, and a failure is `ValueError`. |
| CcbProcessor.Reencoded | from_mwt_ds/DataScience/ccb/dsjson/processor.py:12 | Re-encoding drops a leading byte order mark (U+FEFF), which `json.loads` on bytes decodes away. Any other line is unchanged. |
| CcbProcessor.LoadWithoutMark | from_mwt_ds/DataScience/ccb/dsjson/processor.py:8-12 | A line that does not open with a byte order mark loads exactly when it parses. |
| CcbProcessor.LoadDropsMark | from_mwt_ds/DataScience/ccb/dsjson/processor.py:8-12 | A line that opens with a byte order mark and does not parse loads as the text after the mark. |
| CcbProcessor.PartsCounts | from_mwt_ds/DataScience/ccb/dsjson/processor.py:48-58 | The restructured decision keeps the counts of `_multi`, `_slots` and `_outcomes`. Entry `i` is the merged dict of its group's processors on item `i`. |
| CcbProcessor.AssembleSpec | from_mwt_ds/DataScience/ccb/dsjson/processor.py:60 | Top-level fields win over `c` and `_outcomes`. Without such a field, `c` holds the context dict and `_outcomes` the outcomes. |
| CcbProcessor.ContextSpec | from_mwt_ds/DataScience/ccb/dsjson/processor.py:60 | Any key the shared context holds reads as the shared context's value, so it wins over `_multi` and `_slots`. Without such a field, those keys hold the actions and the slots. |
| CcbProcessor.Processor.constructor | from_mwt_ds/DataScience/ccb/dsjson/processor.py:39-41 | `None` keeps the default processors and filters; any other value, even empty, replaces them. |
| CcbProcessor.Processor.ProcessDecision | from_mwt_ds/DataScience/ccb/dsjson/processor.py:43-61 | The loops equal `DecisionSpec`, whose properties are `PartsCounts`, `AssembleSpec` and `ContextSpec`. |
| CcbProcessor.ProcessLines | from_mwt_ds/DataScience/ccb/dsjson/processor.py:83-88 | With more than one group, there is exactly one `'\n'`-terminated line per line the last filter accepts, in order: that line's dumped decision. It raises exactly when a decision does. Otherwise the filtered lines are returned unchanged. |
| CcbProcessor.AppendActionRows | from_mwt_ds/DataScience/ccb/dsjson/processor.py:70-72 | One `ChainMap(top, shared, action)` row per action, in order, stopping at the first error. |
| CcbProcessor.AppendOutcomeRows | from_mwt_ds/DataScience/ccb/dsjson/processor.py:78-80 | One `ChainMap(top, shared, slots[i], outcome)` row per outcome, in order, stopping at the first error. |
| CcbProcessor.Processor.ProcessDecisionCsv | from_mwt_ds/DataScience/ccb/dsjson/processor.py:63-81 | The loops equal `CsvRows`, whose properties are `CsvRowCounts`. |
| CcbProcessor.CsvRowCounts | from_mwt_ds/DataScience/ccb/dsjson/processor.py:68-81 | With action processors there is one row per action. Otherwise there is one row per outcome, and success requires no more outcomes than slots. |
| CcbProcessor.OutcomeRowsBound | from_mwt_ds/DataScience/ccb/dsjson/processor.py:78-80 | Per-outcome rows succeed only when every outcome has a slot of the same index. |
| CcbProcessor.ProcessCsvConflict | from_mwt_ds/DataScience/ccb/dsjson/processor.py:90-92 | The guard holds exactly when the `_multi` processors are non-empty and either the `_slots` or the `_outcomes` processors are. Then `process_csv` raises the guard's exception before reading any line. |
| CcbProcessor.ProcessCsvRows | from_mwt_ds/DataScience/ccb/dsjson/processor.py:93-95 | Without a conflict, the rows of every line the last filter accepts are concatenated in order. It raises exactly when one of those lines does. |

## Left out

- The real filesystem (`stat`, `exists`, `open`, `mkdir`, `unlink`) is a map from paths to contents plus a set of created directories. Every path read or written is a regular file or absent. `pathlib` normalisation is reduced to cutting at the last `/`.
- `Execution` readers receive the input file's content instead of its path: the reader is taken to read the file it is given.
- `Fileset.read` on an entry that is `None` raises `TypeError` in the model; in Python what happens depends on the reader.
- The `multiprocess` fork isolation and `ThreadPool` concurrency are left out. The pool's chunks run one after another, in chunk order, each from the filesystem the earlier chunks left; concurrent chunks could interleave their file operations. The fork changes nothing in the model because both branches act on the same files.
- Pipeline.Fileset.Init: with a pool, the exception raised is the first in chunk order. Python raises the first one recorded, which with concurrent chunks is the first to complete.
- Pipeline.Fileset.RunPooled: the chunks run in sequence, so the order in which concurrent chunks would finish is not modelled.
- Readers, transforms and writers are functions of their arguments: the value or the exception they give. Side effects of their own are not modelled, such as other files they touch or state they keep. A writer that raises leaves the output as it was, so a partly written output is not modelled.
- The progress sink (`pipeline.progress`) is reduced to counters of `on_start`, `on_step` and `on_finish` calls.
- Default arguments `progress=tqdm_progress()` and `procs=max(1, cpu_count() // 2)` are parameters.
- `Pipeline.Process` and `Pipeline.Delete` take the path list and reader as parameters. The Python code reads them from `self.files` and `self.reader`, which `Fileset.__init__` never sets; `init` sets `files` to an empty list.
- The shared mutable default `files=[]` of `Fileset.__init__` is not modelled: Python default-argument aliasing is not modelled.
- The format readers and writers (`MultilineFiles`, `NdJsonFiles`, `PickleFiles`, `CsvFiles`) use pandas, pickle and json I/O. Readers and writers are function parameters.
- Slices with a step are left out. `Fileset[lo:hi]` models only bounds.
- `type` is modelled only as `None` or the Fileset's own format class, which is what every format subclass passes. Another class given as `type` is not modelled.
- `Text.ParseInt` does not model underscores or non-ASCII digits accepted by Python's `int()`, nor its full Unicode whitespace set.
- Floats are `Float(text)` atoms carrying the text `str()` gives. Float arithmetic is done over `real`.
- `VwCore.FlatText` requires a flat dictionary. The namespaces it receives are flat, which `NamespacesFlat` proves.
- `VwCore.EvalNode` assumes dict templates with distinct keys. They come from Python dict literals.
- `Simulation.run` does not model RNG seeding (`random.seed`, `np.random.seed`).
- `Simulation.__add__` is left out: `self + other` re-enters `__add__` and recurses without end.
- VwCore.ExampleFactoryGet: generators and the label function are modelled as total, deterministic functions, of the index and, for the label, of the evaluated features. In Python they may raise, read random-number state, or change the features dict they are given. Those effects are not modelled.
- `ExampleFactory`'s `example_type` is fixed to `Regression`, the only example type in the code.
- `json.loads`, `json.dumps`, `pd.DataFrame` and `pd.to_datetime` are external.
  - Parsing is a parameter `string -> Option<Json>`; dumping is a parameter `Json -> string`.
  - The timestamp column keeps the raw JSON value.
  - `process_csv` returns the rows the `DataFrame` is built from.
- JSON numbers are reals, so the difference between JSON integers and floats is lost.
- CcbProcessor.Reencoded: `'ignore'` dropping lone surrogates is not modelled, since strings here hold Unicode scalar values. Neither is `json`'s UTF-16/UTF-32 detection, which applies when a NUL character is among a line's first two.
- The filter predicates (`filters.is_decision`) are not part of this model; they are parameters of type `string -> bool`.
- The inner estimator of `cb.estimators` is not part of this model. It is the sequence of samples it was given, with `+` as concatenation.
- CcbEstimators.CbEstimator.Get: the inner `get` is a parameter that returns a number or raises, and the weights are a total function returning a number. An inner `get` returning something else, such as an interval, is not modelled. Float arithmetic is exact over `real`.
- CcbEstimators.CbEstimator.Plus: requires both operands to keep the slot-key invariant. Under it, the `KeyError` of a key held only by the smaller operand cannot happen, so that path is not modelled.
- CcbEstimators.CbEstimator.Add: requires the slot-key invariant, which every estimator built by the constructor and `add` keeps (`AddKeys`).
- `cb/dsjson/predictions.py`'s `json_load` is the same function as the ccb one, so both use `DsJson.JsonLoad`.
