/** The incremental file-pipeline engine: an `Execution` recomputes one output
    from one input unless a size fingerprint kept beside the output shows it
    is up to date; a `Fileset` builds one `Execution` per tracked path and runs
    them in order, collecting the output paths.

    The filesystem is a map from paths to contents, and the fingerprint of a
    file is its length. Each operation that changes the filesystem is a method
    of the `FileSystem` or `Fileset` class, proved equal to a specification
    function on `FsState` snapshots; the lemmas are stated on those functions. */
module Pipeline {
  import opened Wrappers
  import opened Text

  type Path = string

  /** `FileSizeHasher.extension`. */
  const SizeExtension: string := "size"

  /** `f'{output}.{extension}'`: the sidecar file holding an output's fingerprint. */
  function SidecarPath(output: Path): (r: Path)
    ensures |r| > |output| && r[..|output|] == output
  {
    output + "." + SizeExtension
  }

  /** The directory part of a path: everything before its last `/`. */
  function DirPart(p: Path): Option<Path> {
    if p == [] then None
    else if p[|p| - 1] == '/' then Some(p[..|p| - 1])
    else DirPart(p[..|p| - 1])
  }

  /** `Path(p).parent`: `.` for a bare name, `/` for a name directly under the root. */
  function Parent(p: Path): Path {
    match DirPart(p)
    case None => "."
    case Some(d) => if d == [] then "/" else d
  }

  /** A snapshot of the filesystem: the regular files with their contents,
      and the directories created so far. */
  datatype FsState = FsState(files: map<Path, string>, dirs: set<Path>)

  /** `FileSizeHasher.evaluate`: the size of a file; `stat` raises on a missing one. */
  function Evaluate(st: FsState, path: Path): Result<nat> {
    if path in st.files then Ok(|st.files[path]|) else Err(FileNotFoundError(path))
  }

  /** `_load_hash`: the integer stored in the sidecar, or `None` when the sidecar
      is missing or does not parse. Nothing is raised. */
  function LoadHash(st: FsState, output: Path): Option<int> {
    var hashPath := SidecarPath(output);
    if hashPath !in st.files then None else ParseInt(st.files[hashPath])
  }

  /** `_is_in_sync`: `input_hash and output_hash and input_hash == output_hash`,
      where a zero size and a missing or unparsable sidecar are both falsy. */
  function InSync(st: FsState, input: Path, output: Path): Result<bool> {
    match Evaluate(st, input)
    case Err(e) => Err(e)
    case Ok(inputHash) =>
      var outputHash := LoadHash(st, output);
      Ok(inputHash != 0 && outputHash.Some? && outputHash.value != 0 && inputHash == outputHash.value)
  }

  /** A Fileset's reader: given the index and the content of a file, the
      value read, or the exception it raises. */
  type Reader<T> = (int, string) -> Result<T>

  /** A Fileset's writer: given the output path and a result, the content it
      writes there, or the exception it raises (leaving the output as it was). */
  type Writer<!U> = (Path, U) -> Result<string>

  /** A transform: its result (`None` is Python's `None`), or the exception it raises. */
  type Transform<!T, U> = T -> Result<Option<U>>

  /** One planned transformation. `reader` is the Fileset's reader with the
      path's index bound (it receives the input's content), `processor` the
      transform and `process` the force flag. */
  datatype Execution<!T, U> = Execution(
    index: int,
    reader: Reader<T>,
    input: Path,
    output: Path,
    processor: Transform<T, U>,
    process: bool)

  /** The condition of `run`, evaluated left to right as Python does:
      `process or not Path(output).exists() or not _is_in_sync()`. */
  function NeedsRun<T, U>(e: Execution<T, U>, st: FsState): Result<bool> {
    if e.process || e.output !in st.files then Ok(true)
    else match InSync(st, e.input, e.output)
      case Err(err) => Err(err)
      case Ok(inSync) => Ok(!inSync)
  }

  /** `Execution.run`: when work is needed, create the output's parent directory,
      then read the input and transform it, either of which may raise;
      otherwise return `None`. */
  function RunSpec<T, U>(e: Execution<T, U>, st: FsState): (Result<Option<U>>, FsState) {
    match NeedsRun(e, st)
    case Err(err) => (Err(err), st)
    case Ok(need) =>
      if !need then (Ok(None), st)
      else
        var st1 := st.(dirs := st.dirs + {Parent(e.output)});
        if e.input !in st1.files then (Err(FileNotFoundError(e.input)), st1)
        else
          match e.reader(e.index, st1.files[e.input])
          case Err(err) => (Err(err), st1)
          case Ok(x) => (e.processor(x), st1)
  }

  /** `Execution.close`: `_sync` opens the sidecar for writing (truncating it),
      writes the input's size, and then the output path is reported if the
      output exists. */
  function CloseSpec<T, U>(e: Execution<T, U>, st: FsState): (Result<Option<Path>>, FsState) {
    var hashPath := SidecarPath(e.output);
    var st1 := st.(files := st.files[hashPath := ""]);
    if e.input !in st1.files then (Err(FileNotFoundError(e.input)), st1)
    else
      var st2 := st1.(files := st1.files[hashPath := NatToString(|st1.files[e.input]|)]);
      (Ok(if e.output in st2.files then Some(e.output) else None), st2)
  }

  /** The `_run` closure of `Fileset._process_execution`: run, hand a non-`None`
      result to the writer (which produces the output's content), then close.
      An exception from `run` or from the writer skips `close`. */
  function StepSpec<T, U>(e: Execution<T, U>, writer: Writer<U>, st: FsState): (Result<Option<Path>>, FsState) {
    var (r, st1) := RunSpec(e, st);
    match r
    case Err(err) => (Err(err), st1)
    case Ok(None) => CloseSpec(e, st1)
    case Ok(Some(result)) =>
      match writer(e.output, result)
      case Err(err) => (Err(err), st1)
      case Ok(text) => CloseSpec(e, st1.(files := st1.files[e.output := text]))
  }

  /** What running a batch of executions in order leaves behind: the outputs
      reported by the units that completed, the exception that stopped the
      batch (if any), and the filesystem. */
  datatype Batch = Batch(outputs: seq<Option<Path>>, error: Option<PyError>, fs: FsState)

  function BatchSpec<T, U>(execs: seq<Execution<T, U>>, writer: Writer<U>, st: FsState): Batch
    decreases |execs|
  {
    if |execs| == 0 then Batch([], None, st)
    else
      var before := BatchSpec(execs[..|execs| - 1], writer, st);
      if before.error.Some? then before
      else
        var (r, st') := StepSpec(execs[|execs| - 1], writer, before.fs);
        match r
        case Err(err) => Batch(before.outputs, Some(err), st')
        case Ok(out) => Batch(before.outputs + [out], None, st')
  }

  /** The chunk size `ThreadPool.starmap` picks for `n` tasks on `procs`
      workers: `n / (4 * procs)` rounded up, and 0 when there are no tasks.
      With at most four tasks per worker they are sent one at a time. */
  function ChunkSize(n: nat, procs: nat): (c: nat)
    requires procs >= 1
    ensures n == 0 ==> c == 0
    ensures n > 0 ==> (c - 1) * (4 * procs) < n <= c * (4 * procs)
    ensures 0 < n <= 4 * procs ==> c == 1
  {
    var q := n / (4 * procs);
    if n % (4 * procs) != 0 then q + 1 else q
  }

  /** The end of the pool's chunk that starts at `start`. */
  function ChunkEnd(n: nat, start: nat, chunk: nat): (end: nat)
    requires start < n && chunk >= 1
    ensures start < end <= n
  {
    if chunk < n - start then start + chunk else n
  }

  /** What the pool's `starmap` leaves behind from the chunk at `start` on:
      the executions are cut into chunks of `chunk` consecutive ones, and each
      chunk runs as a batch of its own that stops at its own first exception.
      Every chunk is run, each from the filesystem the chunks before it left;
      the exception reported is the first chunk's that raised. */
  function PoolSpec<T, U>(execs: seq<Execution<T, U>>, start: nat, chunk: nat, writer: Writer<U>, st: FsState): Batch
    requires start <= |execs| && (chunk >= 1 || start == |execs|)
    decreases |execs| - start
  {
    if start == |execs| then Batch([], None, st)
    else
      var end := ChunkEnd(|execs|, start, chunk);
      var first := BatchSpec(execs[start..end], writer, st);
      var rest := PoolSpec(execs, end, chunk, writer, first.fs);
      Batch(first.outputs + rest.outputs, if first.error.Some? then first.error else rest.error, rest.fs)
  }

  /** The default `path_gen` of `Fileset.process`: append `.` and the processor's name. */
  function DefaultOutput(processorName: string, input: Path): Path {
    input + "." + processorName
  }

  /** `Fileset.process`: one `Execution` per path, in order, each reading
      through the Fileset's reader with its own index. Python reads the path
      list and the reader from attributes that `Fileset.__init__` never sets
      (`self.files`, `self.reader`); here both are parameters. */
  function Process<T, U>(paths: seq<Path>, reader: Reader<T>, processor: Transform<T, U>,
                         processorName: string, pathGen: Option<Path -> Path>, process: bool): (r: seq<Execution<T, U>>)
    ensures |r| == |paths|
    ensures forall i :: 0 <= i < |r| ==>
      r[i].index == i && r[i].input == paths[i] && r[i].reader == reader &&
      r[i].processor == processor && r[i].process == process &&
      r[i].output == (if pathGen.Some? then pathGen.value(paths[i]) else DefaultOutput(processorName, paths[i]))
  {
    var gen := if pathGen.Some? then pathGen.value else (f: Path) => DefaultOutput(processorName, f);
    seq(|paths|, i requires 0 <= i < |paths| => Execution(i, reader, paths[i], gen(paths[i]), processor, process))
  }

  // ---------------------------------------------------------------------------
  // Properties of the specification

  /** The run/skip rule: `run` skips exactly when the force flag is off, the
      output exists, the input is non-empty and the sidecar holds its size; it
      raises exactly when it has to take the input's size and the input is missing. */
  lemma NeedsRunRule<T, U>(e: Execution<T, U>, st: FsState)
    ensures NeedsRun(e, st) == Ok(false) <==>
      !e.process && e.output in st.files && e.input in st.files &&
      |st.files[e.input]| > 0 && LoadHash(st, e.output) == Some(|st.files[e.input]|)
    ensures NeedsRun(e, st).Err? <==> !e.process && e.output in st.files && e.input !in st.files
    ensures e.process ==> NeedsRun(e, st) == Ok(true)
  {
  }

  /** A zero-byte input is never in sync, whatever its sidecar says. */
  lemma EmptyInputNeverInSync(st: FsState, input: Path, output: Path)
    requires input in st.files && st.files[input] == ""
    ensures InSync(st, input, output) == Ok(false)
  {
  }

  /** A skipped `run` changes nothing and returns `None`; a `run` that works
      only adds the output's parent directory, and it transforms the input's
      content. It raises exactly when the input is missing, the reader raises
      or the transform raises, and then with that exception. A failed sync
      check (unforced, output present, input missing) raises
      `FileNotFoundError` for the input and changes nothing. */
  lemma RunEffects<T, U>(e: Execution<T, U>, st: FsState)
    ensures var (r, st') := RunSpec(e, st);
      st'.files == st.files &&
      (NeedsRun(e, st) == Ok(true) ==>
         (st'.dirs == st.dirs + {Parent(e.output)} &&
          (r.Ok? <==> e.input in st.files && e.reader(e.index, st.files[e.input]).Ok? &&
                      e.processor(e.reader(e.index, st.files[e.input]).value).Ok?) &&
          (e.input !in st.files ==> r == Err(FileNotFoundError(e.input))) &&
          (e.input in st.files && e.reader(e.index, st.files[e.input]).Err? ==>
             r == Err(e.reader(e.index, st.files[e.input]).error)) &&
          (e.input in st.files && e.reader(e.index, st.files[e.input]).Ok? ==>
             r == e.processor(e.reader(e.index, st.files[e.input]).value)))) &&
      (NeedsRun(e, st) == Ok(false) ==> (r, st') == (Ok(None), st)) &&
      (NeedsRun(e, st).Err? ==> (r, st') == (Err(FileNotFoundError(e.input)), st))
  {
  }

  /** `close` overwrites the sidecar with the input's size, touches no other
      file, and reports the output path if and only if the output exists. */
  lemma CloseEffects<T, U>(e: Execution<T, U>, st: FsState)
    requires e.input in st.files && e.input != SidecarPath(e.output)
    ensures var (r, st') := CloseSpec(e, st);
      r.Ok? && st'.dirs == st.dirs &&
      st'.files == st.files[SidecarPath(e.output) := NatToString(|st.files[e.input]|)] &&
      (r.value == Some(e.output) <==> e.output in st.files) &&
      (r.value != Some(e.output) ==> r.value == None) &&
      LoadHash(st', e.output) == Some(|st.files[e.input]|)
  {
    var hashPath := SidecarPath(e.output);
    assert e.output != hashPath;
    var (r, st') := CloseSpec(e, st);
    assert st'.files[hashPath] == NatToString(|st.files[e.input]|);
    ParseIntOfIntToString(|st.files[e.input]|);
  }

  /** Idempotence: once `close` has synced a non-empty input whose output
      exists, running the same execution again without the force flag skips
      and changes nothing, because the sidecar round-trips the size. */
  lemma {:induction false} RerunAfterCloseSkips<T, U>(e: Execution<T, U>, st: FsState)
    requires e.input in st.files && |st.files[e.input]| > 0 && e.output in st.files
    requires e.input != SidecarPath(e.output)
    ensures var (r, st') := CloseSpec(e, st);
      r == Ok(Some(e.output)) && RunSpec(e.(process := false), st') == (Ok(None), st')
  {
    CloseEffects(e, st);
    var (r, st') := CloseSpec(e, st);
    assert st'.files[e.input] == st.files[e.input];
    assert InSync(st', e.input, e.output) == Ok(true);
  }

  /** A step raises exactly when `run` raises or the writer raises on the
      result, with that exception; `close` is then not reached, so no file
      has changed. */
  lemma StepFailure<T, U>(e: Execution<T, U>, writer: Writer<U>, st: FsState)
    ensures var s := StepSpec(e, writer, st);
      var run := RunSpec(e, st).0;
      (s.0.Err? <==> run.Err? || (run.value.Some? && writer(e.output, run.value.value).Err?)) &&
      (s.0.Err? ==> s.1.files == st.files &&
                    s.0.error == if run.Err? then run.error else writer(e.output, run.value.value).error)
  {
    RunEffects(e, st);
  }

  /** The same for a whole step: when the transform produced output for a
      non-empty input, a second step without the force flag skips, and it
      leaves the files exactly as they were. */
  lemma {:induction false} SecondStepSkips<T, U>(e: Execution<T, U>, writer: Writer<U>, st: FsState)
    requires e.input in st.files && e.input != SidecarPath(e.output) && e.input != e.output
    requires |st.files[e.input]| > 0
    requires RunSpec(e, st).0.Ok? && RunSpec(e, st).0.value.Some?
    requires StepSpec(e, writer, st).0.Ok?
    ensures var (r, st') := StepSpec(e, writer, st);
      r == Ok(Some(e.output)) &&
      StepSpec(e.(process := false), writer, st') == (Ok(Some(e.output)), st')
  {
    var (r1, st1) := RunSpec(e, st);
    RunEffects(e, st);
    var st2 := st1.(files := st1.files[e.output := writer(e.output, r1.value.value).value]);
    assert StepSpec(e, writer, st) == CloseSpec(e, st2);
    RerunAfterCloseSkips(e, st2);
    var (r, st') := CloseSpec(e, st2);
    var e' := e.(process := false);
    assert RunSpec(e', st') == (Ok(None), st');
    CloseEffects(e', st');
    var (r3, st3) := CloseSpec(e', st');
    assert st'.files[SidecarPath(e.output)] == NatToString(|st2.files[e.input]|);
    assert st3.files == st'.files;
  }

  /** Order preservation: the batch reports the outputs of a prefix of the
      executions, in execution order, entry `i` belonging to execution `i`; it
      covers every execution exactly when no unit raised. */
  lemma {:induction false} BatchOutputsInOrder<T, U>(execs: seq<Execution<T, U>>, writer: Writer<U>, st: FsState)
    ensures var b := BatchSpec(execs, writer, st);
      |b.outputs| <= |execs| &&
      (b.error.None? <==> |b.outputs| == |execs|) &&
      forall i :: 0 <= i < |b.outputs| ==> b.outputs[i] == None || b.outputs[i] == Some(execs[i].output)
    decreases |execs|
  {
    if execs != [] {
      var init := execs[..|execs| - 1];
      BatchOutputsInOrder(init, writer, st);
      var before := BatchSpec(init, writer, st);
      if before.error.None? {
        var e := execs[|execs| - 1];
        StepOutput(e, writer, before.fs);
        var b := BatchSpec(execs, writer, st);
        forall i | 0 <= i < |b.outputs|
          ensures b.outputs[i] == None || b.outputs[i] == Some(execs[i].output)
        {
          if i < |before.outputs| {
            assert b.outputs[i] == before.outputs[i] && execs[i] == init[i];
          }
        }
      }
    }
  }

  /** A completed step reports its own output path or nothing. */
  lemma StepOutput<T, U>(e: Execution<T, U>, writer: Writer<U>, st: FsState)
    ensures StepSpec(e, writer, st).0.Ok? ==>
      (StepSpec(e, writer, st).0.value == None || StepSpec(e, writer, st).0.value == Some(e.output))
  {
  }

  /** With the default path generator, distinct inputs get distinct outputs, so
      no two executions of a batch overwrite each other's output. */
  lemma {:induction false} DefaultOutputsDistinct<T, U>(paths: seq<Path>, reader: Reader<T>,
                                                      processor: Transform<T, U>, processorName: string, process: bool)
    ensures var execs := Process(paths, reader, processor, processorName, None, process);
      forall i, j :: 0 <= i < |paths| && 0 <= j < |paths| && paths[i] != paths[j] ==> execs[i].output != execs[j].output
  {
    var execs := Process(paths, reader, processor, processorName, None, process);
    forall i, j | 0 <= i < |paths| && 0 <= j < |paths| && paths[i] != paths[j]
      ensures execs[i].output != execs[j].output
    {
      assert execs[i].output == DefaultOutput(processorName, paths[i]);
      assert execs[j].output == DefaultOutput(processorName, paths[j]);
      DefaultOutputInjective(processorName, paths[i], paths[j]);
    }
  }

  lemma DefaultOutputInjective(processorName: string, a: Path, b: Path)
    ensures DefaultOutput(processorName, a) == DefaultOutput(processorName, b) ==> a == b
  {
    var suffix := "." + processorName;
    assert DefaultOutput(processorName, a) == a + suffix;
    assert DefaultOutput(processorName, b) == b + suffix;
    if a + suffix == b + suffix {
      assert a == (a + suffix)[..|a|];
      assert b == (b + suffix)[..|b|];
    }
  }

  // ---------------------------------------------------------------------------
  // The imperative layer

  /** The filesystem the pipeline reads and writes: `stat`, `exists`, `open`,
      `mkdir` and `unlink` on a map from paths to contents. */
  class FileSystem {
    var files: map<Path, string>
    var dirs: set<Path>

    function State(): FsState
      reads this
    {
      FsState(files, dirs)
    }

    constructor (files: map<Path, string>)
      ensures State() == FsState(files, {})
    {
      this.files := files;
      this.dirs := {};
    }

    method Exists(p: Path) returns (b: bool)
      ensures b <==> p in files
    {
      b := p in files;
    }

    /** `Path(p).stat().st_size`. */
    method Size(p: Path) returns (r: Result<nat>)
      ensures r == Evaluate(State(), p)
    {
      if p in files {
        r := Ok(|files[p]|);
      } else {
        r := Err(FileNotFoundError(p));
      }
    }

    /** `open(p).read()`. */
    method ReadText(p: Path) returns (r: Result<string>)
      ensures r.Ok? <==> p in files
      ensures r.Err? ==> r.error == FileNotFoundError(p)
      ensures r.Ok? ==> r.value == files[p]
    {
      if p in files {
        r := Ok(files[p]);
      } else {
        r := Err(FileNotFoundError(p));
      }
    }

    /** `open(p, 'w')` followed by writing `text`. */
    method WriteText(p: Path, text: string)
      modifies this
      ensures files == old(files)[p := text] && dirs == old(dirs)
    {
      files := files[p := text];
    }

    /** `Path(d).mkdir(parents=True, exist_ok=True)`. */
    method Mkdir(d: Path)
      modifies this
      ensures dirs == old(dirs) + {d} && files == old(files)
    {
      dirs := dirs + {d};
    }

    /** `Path(p).unlink()`: raises on a missing file. */
    method Unlink(p: Path) returns (r: Result<()>)
      modifies this
      ensures r.Ok? <==> p in old(files)
      ensures files == old(files) - {p} && dirs == old(dirs)
    {
      if p in files {
        files := files - {p};
        r := Ok(());
      } else {
        r := Err(FileNotFoundError(p));
      }
    }
  }

  /** `Execution._load_hash` on the live filesystem. */
  method LoadHashOf(fs: FileSystem, output: Path) returns (r: Option<int>)
    ensures r == LoadHash(fs.State(), output)
  {
    var hashPath := SidecarPath(output);
    var present := fs.Exists(hashPath);
    if !present {
      return None;
    }
    var text := fs.ReadText(hashPath);
    r := ParseInt(text.value);
  }

  /** `Execution._is_in_sync` on the live filesystem. */
  method IsInSync(fs: FileSystem, input: Path, output: Path) returns (r: Result<bool>)
    ensures r == InSync(fs.State(), input, output)
  {
    var inputHash := fs.Size(input);
    if inputHash.Err? {
      return Err(inputHash.error);
    }
    var outputHash := LoadHashOf(fs, output);
    r := Ok(inputHash.value != 0 && outputHash.Some? && outputHash.value != 0 && inputHash.value == outputHash.value);
  }

  /** `Execution.run`. */
  method Run<T, U>(e: Execution<T, U>, fs: FileSystem) returns (r: Result<Option<U>>)
    modifies fs
    ensures (r, fs.State()) == RunSpec(e, old(fs.State()))
  {
    var need := e.process;
    if !need {
      var outputExists := fs.Exists(e.output);
      need := !outputExists;
    }
    if !need {
      var inSync := IsInSync(fs, e.input, e.output);
      if inSync.Err? {
        return Err(inSync.error);
      }
      need := !inSync.value;
    }
    if !need {
      return Ok(None);
    }
    fs.Mkdir(Parent(e.output));
    var content := fs.ReadText(e.input);
    if content.Err? {
      return Err(content.error);
    }
    var x := e.reader(e.index, content.value);
    if x.Err? {
      return Err(x.error);
    }
    r := e.processor(x.value);
  }

  /** `Execution.close`: `_sync`, then report the output if it exists. */
  method Close<T, U>(e: Execution<T, U>, fs: FileSystem) returns (r: Result<Option<Path>>)
    modifies fs
    ensures (r, fs.State()) == CloseSpec(e, old(fs.State()))
  {
    var hashPath := SidecarPath(e.output);
    fs.WriteText(hashPath, "");
    var size := fs.Size(e.input);
    if size.Err? {
      return Err(size.error);
    }
    fs.WriteText(hashPath, NatToString(size.value));
    var outputExists := fs.Exists(e.output);
    r := Ok(if outputExists then Some(e.output) else None);
  }

  /** The progress sink, reduced to what it is told: the totals passed to
      `on_start`, and how many times `on_step` and `on_finish` were called. */
  class Progress {
    var starts: seq<nat>
    var steps: nat
    var finishes: nat

    constructor ()
      ensures starts == [] && steps == 0 && finishes == 0
    {
      starts, steps, finishes := [], 0, 0;
    }

    method OnStart(total: nat)
      modifies this
      ensures starts == old(starts) + [total] && steps == old(steps) && finishes == old(finishes)
    {
      starts := starts + [total];
    }

    method OnStep()
      modifies this
      ensures starts == old(starts) && steps == old(steps) + 1 && finishes == old(finishes)
    {
      steps := steps + 1;
    }

    method OnFinish()
      modifies this
      ensures starts == old(starts) && steps == old(steps) && finishes == old(finishes) + 1
    {
      finishes := finishes + 1;
    }
  }

  /** Python's index into a list of length `n`: negative indices count from the end. */
  function PyIndex(n: nat, i: int): (r: Option<nat>)
    ensures r.Some? ==> r.value < n
    ensures r.Some? <==> -(n as int) <= i < n
  {
    if 0 <= i < n then Some(i) else if -(n as int) <= i < 0 then Some(n + i) else None
  }

  /** One bound of a Python slice `[lo:hi]` of a list of length `n`, clamped to `0..n`. */
  function SliceBound(n: nat, b: Option<int>, default: nat): (r: nat)
    requires default <= n
    ensures r <= n
  {
    match b
    case None => default
    case Some(x) => if x < 0 then (if x + n < 0 then 0 else x + n) else if x > n then n else x
  }

  /** An ordered collection of tracked paths with the reader and writer of its format.
      `tracked` is `_files` (entries are `None` where a unit reported no output);
      `listing` is the separate `files` attribute, which only `init` assigns. */
  class Fileset<T, U> {
    var tracked: seq<Option<Path>>
    var listing: Option<seq<Path>>
    const reader: Reader<T>
    const writer: Writer<U>
    /** Whether `type` names this Fileset's own format class, as every format
        subclass passes it; a Fileset built directly has `type=None`. */
    const typed: bool

    constructor (files: seq<Option<Path>>, reader: Reader<T>, writer: Writer<U>, typed: bool)
      ensures tracked == files && listing == None
      ensures this.reader == reader && this.writer == writer && this.typed == typed
    {
      this.tracked := files;
      this.listing := None;
      this.reader := reader;
      this.writer := writer;
      this.typed := typed;
    }

    /** `Fileset.read(i)`: the reader applied to the `i`-th tracked file. */
    function Read(i: int, fs: FileSystem): (r: Result<T>)
      reads this, fs
      ensures PyIndex(|tracked|, i).None? ==> r == Err(IndexError)
      ensures PyIndex(|tracked|, i).Some? && tracked[PyIndex(|tracked|, i).value].Some? ==>
        var p := tracked[PyIndex(|tracked|, i).value].value;
        r == if p in fs.files then reader(i, fs.files[p]) else Err(FileNotFoundError(p))
      ensures PyIndex(|tracked|, i).Some? && tracked[PyIndex(|tracked|, i).value].None? ==> r.Err?
    {
      match PyIndex(|tracked|, i)
      case None => Err(IndexError)
      case Some(k) =>
        match tracked[k]
        case None => Err(TypeError)
        case Some(p) => if p in fs.files then reader(i, fs.files[p]) else Err(FileNotFoundError(p))
    }

    /** `Fileset[i]` for an integer `i`. */
    function GetItem(i: int): (r: Result<Option<Path>>)
      reads this
      ensures r.Ok? <==> -|tracked| <= i < |tracked|
      ensures r.Ok? && i >= 0 ==> r.value == tracked[i]
      ensures r.Ok? && i < 0 ==> r.value == tracked[|tracked| + i]
    {
      match PyIndex(|tracked|, i)
      case None => Err(IndexError)
      case Some(k) => Ok(tracked[k])
    }

    /** `Fileset[lo:hi]`: a new Fileset of the same format over the slice;
        calling a `type` of `None` raises `TypeError`. */
    method Slice(lo: Option<int>, hi: Option<int>) returns (r: Result<Fileset<T, U>>)
      ensures r.Err? <==> !typed
      ensures r.Err? ==> r.error == TypeError
      ensures r.Ok? ==> fresh(r.value) && r.value.reader == reader && r.value.writer == writer &&
                        r.value.typed && r.value.listing == None
      ensures r.Ok? ==> var n := |tracked|;
        var a := SliceBound(n, lo, 0);
        var b := SliceBound(n, hi, n);
        r.value.tracked == if a <= b then tracked[a..b] else []
    {
      var n := |tracked|;
      var a := SliceBound(n, lo, 0);
      var b := SliceBound(n, hi, n);
      var files := if a <= b then tracked[a..b] else [];
      if !typed {
        return Err(TypeError);
      }
      var fs := new Fileset(files, reader, writer, true);
      r := Ok(fs);
    }

    /** `Fileset._process_execution`: the `_run` closure (in the calling
        thread or in a child process; both act on the same files), then one
        `on_step`. */
    method ProcessExecution(e: Execution<T, U>, fs: FileSystem, progress: Progress) returns (r: Result<Option<Path>>)
      modifies fs, progress
      ensures (r, fs.State()) == StepSpec(e, writer, old(fs.State()))
      ensures progress.starts == old(progress.starts) && progress.finishes == old(progress.finishes)
      ensures progress.steps == old(progress.steps) + (if r.Ok? then 1 else 0)
    {
      var result := Run(e, fs);
      if result.Err? {
        return Err(result.error);
      }
      if result.value.Some? {
        var text := writer(e.output, result.value.value);
        if text.Err? {
          return Err(text.error);
        }
        fs.WriteText(e.output, text.value);
      }
      r := Close(e, fs);
      if r.Ok? {
        progress.OnStep();
      }
    }

    /** The executions processed one after another, results kept in
        execution order; the first exception ends the batch. This is the
        sequential loop of `init`, and what the pool does with each chunk. */
    method RunInOrder(execs: seq<Execution<T, U>>, fs: FileSystem, progress: Progress)
      returns (outputs: seq<Option<Path>>, error: Option<PyError>)
      modifies fs, progress
      ensures Batch(outputs, error, fs.State()) == BatchSpec(execs, writer, old(fs.State()))
      ensures progress.starts == old(progress.starts) && progress.finishes == old(progress.finishes)
      ensures progress.steps == old(progress.steps) + |outputs|
    {
      outputs, error := [], None;
      var k := 0;
      while k < |execs|
        invariant 0 <= k <= |execs|
        invariant Batch(outputs, error, fs.State()) == BatchSpec(execs[..k], writer, old(fs.State()))
        invariant progress.starts == old(progress.starts) && progress.finishes == old(progress.finishes)
        invariant progress.steps == old(progress.steps) + |outputs|
        invariant error == None
      {
        BatchStep(execs, k, writer, old(fs.State()));
        var r := ProcessExecution(execs[k], fs, progress);
        if r.Err? {
          error := Some(r.error);
          BatchStopsAtError(execs, k + 1, writer, old(fs.State()));
          return;
        }
        outputs := outputs + [r.value];
        k := k + 1;
      }
      assert execs[..k] == execs;
    }

    /** The pool's `starmap` over chunks of `chunk` executions: each chunk
        runs in order and stops at its own first exception, and every chunk
        is run. The chunks run one after another here. */
    method RunPooled(execs: seq<Execution<T, U>>, chunk: nat, fs: FileSystem, progress: Progress)
      returns (outputs: seq<Option<Path>>, error: Option<PyError>)
      requires chunk >= 1 || |execs| == 0
      modifies fs, progress
      ensures Batch(outputs, error, fs.State()) == PoolSpec(execs, 0, chunk, writer, old(fs.State()))
      ensures progress.starts == old(progress.starts) && progress.finishes == old(progress.finishes)
      ensures progress.steps == old(progress.steps) + |outputs|
    {
      outputs, error := [], None;
      var start := 0;
      while start < |execs|
        invariant 0 <= start <= |execs|
        invariant var p := PoolSpec(execs, start, chunk, writer, fs.State());
          PoolSpec(execs, 0, chunk, writer, old(fs.State())) ==
          Batch(outputs + p.outputs, if error.Some? then error else p.error, p.fs)
        invariant progress.starts == old(progress.starts) && progress.finishes == old(progress.finishes)
        invariant progress.steps == old(progress.steps) + |outputs|
        decreases |execs| - start
      {
        var end := ChunkEnd(|execs|, start, chunk);
        ghost var s0 := fs.State();
        var outs, err := RunInOrder(execs[start..end], fs, progress);
        PoolAdvance(execs, start, chunk, writer, s0, PoolSpec(execs, 0, chunk, writer, old(fs.State())),
                    outputs, error, outs, err, fs.State());
        outputs := outputs + outs;
        if error.None? {
          error := err;
        }
        start := end;
      }
      assert outputs + [] == outputs;
    }

    /** `Fileset.init`: `files` is reset to an empty list; with one process the
        results are appended to `_files` (which is not reset), with more the
        pool's ordered results replace `_files`. An exception skips
        `on_finish`; the pooled branch then leaves `_files` as it was, after
        running every chunk. */
    method Init(execs: seq<Execution<T, U>>, fs: FileSystem, progress: Progress, procs: int) returns (r: Result<()>)
      modifies this, fs, progress
      ensures listing == Some([])
      ensures progress.starts == old(progress.starts) + [|execs|]
      ensures procs < 1 ==> r == Err(ValueError) && fs.State() == old(fs.State()) && tracked == old(tracked) &&
                            progress.steps == old(progress.steps) && progress.finishes == old(progress.finishes)
      ensures procs == 1 ==>
        var b := BatchSpec(execs, writer, old(fs.State()));
        fs.State() == b.fs &&
        progress.steps == old(progress.steps) + |b.outputs| &&
        progress.finishes == old(progress.finishes) + (if b.error.None? then 1 else 0) &&
        (if b.error.None? then r == Ok(()) else r == Err(b.error.value)) &&
        tracked == old(tracked) + b.outputs
      ensures procs > 1 ==>
        var p := PoolSpec(execs, 0, ChunkSize(|execs|, procs), writer, old(fs.State()));
        fs.State() == p.fs &&
        progress.steps == old(progress.steps) + |p.outputs| &&
        progress.finishes == old(progress.finishes) + (if p.error.None? then 1 else 0) &&
        (if p.error.None? then r == Ok(()) else r == Err(p.error.value)) &&
        tracked == (if p.error.None? then p.outputs else old(tracked))
    {
      listing := Some([]);
      progress.OnStart(|execs|);
      if procs == 1 {
        // appending each result as it arrives leaves `_files` as appending
        // the ordered results of the executions run so far
        var outputs, error := RunInOrder(execs, fs, progress);
        tracked := tracked + outputs;
        if error.Some? {
          return Err(error.value);
        }
      } else if procs < 1 {
        // ThreadPool(procs) rejects a pool without workers
        return Err(ValueError);
      } else {
        var outputs, error := RunPooled(execs, ChunkSize(|execs|, procs), fs, progress);
        if error.Some? {
          return Err(error.value);
        }
        tracked := outputs;
      }
      progress.OnFinish();
      r := Ok(());
    }
  }

  /** One more unit after a prefix that has not raised: its exception stops
      the batch, otherwise its output is reported after the others. */
  lemma BatchStep<T, U>(execs: seq<Execution<T, U>>, k: nat, writer: Writer<U>, st: FsState)
    requires k < |execs|
    requires BatchSpec(execs[..k], writer, st).error == None
    ensures var before := BatchSpec(execs[..k], writer, st);
      var (r, st') := StepSpec(execs[k], writer, before.fs);
      BatchSpec(execs[..k + 1], writer, st) ==
        if r.Err? then Batch(before.outputs, Some(r.error), st') else Batch(before.outputs + [r.value], None, st')
  {
    assert execs[..k + 1][..k] == execs[..k];
    assert execs[..k + 1][k] == execs[k];
  }

  /** Once a prefix of the batch has raised, the rest of the batch is not run. */
  lemma {:induction false} BatchStopsAtError<T, U>(execs: seq<Execution<T, U>>, k: nat, writer: Writer<U>, st: FsState)
    requires k <= |execs|
    requires BatchSpec(execs[..k], writer, st).error.Some?
    ensures BatchSpec(execs, writer, st) == BatchSpec(execs[..k], writer, st)
    decreases |execs| - k
  {
    if k < |execs| {
      assert execs[..k + 1][..k] == execs[..k];
      BatchStopsAtError(execs, k + 1, writer, st);
    } else {
      assert execs[..k] == execs;
    }
  }

  /** Running `a` then `b` as one batch is running `a` and, unless it raised,
      then `b` from where `a` left the filesystem. */
  lemma {:induction false} BatchAppend<T, U>(a: seq<Execution<T, U>>, b: seq<Execution<T, U>>, writer: Writer<U>, st: FsState)
    ensures var ba := BatchSpec(a, writer, st);
      BatchSpec(a + b, writer, st) ==
        if ba.error.Some? then ba
        else
          var bb := BatchSpec(b, writer, ba.fs);
          Batch(ba.outputs + bb.outputs, bb.error, bb.fs)
    decreases |b|
  {
    var ba := BatchSpec(a, writer, st);
    if b == [] {
      assert a + b == a;
      assert ba.outputs + [] == ba.outputs;
    } else {
      var b0 := b[..|b| - 1];
      assert (a + b)[..|a + b| - 1] == a + b0;
      assert (a + b)[|a + b| - 1] == b[|b| - 1];
      BatchAppend(a, b0, writer, st);
      if ba.error.None? {
        var bb0 := BatchSpec(b0, writer, ba.fs);
        if bb0.error.None? {
          var (r, st') := StepSpec(b[|b| - 1], writer, bb0.fs);
          if r.Ok? {
            assert (ba.outputs + bb0.outputs) + [r.value] == ba.outputs + (bb0.outputs + [r.value]);
          }
        }
      }
    }
  }

  /** The pool raises the same exception as the sequential loop, keeps at
      least the outputs the sequential loop reports, and when nothing raises
      it leaves exactly what the sequential loop leaves. */
  lemma {:induction false} PoolAgreesWithBatch<T, U>(execs: seq<Execution<T, U>>, start: nat, chunk: nat,
                                                   writer: Writer<U>, st: FsState)
    requires start <= |execs| && (chunk >= 1 || start == |execs|)
    ensures var p := PoolSpec(execs, start, chunk, writer, st);
      var b := BatchSpec(execs[start..], writer, st);
      p.error == b.error && b.outputs <= p.outputs && (b.error.None? ==> p == b)
    decreases |execs| - start
  {
    if start == |execs| {
      assert execs[start..] == [];
    } else {
      var end := ChunkEnd(|execs|, start, chunk);
      assert execs[start..] == execs[start..end] + execs[end..];
      BatchAppend(execs[start..end], execs[end..], writer, st);
      var first := BatchSpec(execs[start..end], writer, st);
      PoolAgreesWithBatch(execs, end, chunk, writer, first.fs);
    }
  }

  /** With chunks of one execution (which `starmap` picks for at most four
      executions per worker), an exception does not stop the executions
      after it: each runs from the filesystem the one before it left. */
  lemma PoolUnitChunks<T, U>(execs: seq<Execution<T, U>>, start: nat, writer: Writer<U>, st: FsState)
    requires start < |execs|
    ensures var s := StepSpec(execs[start], writer, st);
      var rest := PoolSpec(execs, start + 1, 1, writer, s.1);
      PoolSpec(execs, start, 1, writer, st) ==
        Batch((if s.0.Ok? then [s.0.value] else []) + rest.outputs,
              if s.0.Err? then Some(s.0.error) else rest.error, rest.fs)
  {
    assert execs[start..start + 1] == [execs[start]];
    BatchSingle(execs[start], writer, st);
  }

  /** One round of the pool's loop: when `whole` is what has been reported
      so far followed by the pool from `start` on, and the chunk at `start`
      reports `outs` and `err` and leaves `s1`, then `whole` is what has been
      reported, the chunk's outputs, and the pool from the next chunk on; the
      first exception stays first. */
  lemma PoolAdvance<T, U>(execs: seq<Execution<T, U>>, start: nat, chunk: nat, writer: Writer<U>, s0: FsState,
                          whole: Batch, outputs: seq<Option<Path>>, error: Option<PyError>,
                          outs: seq<Option<Path>>, err: Option<PyError>, s1: FsState)
    requires start < |execs| && chunk >= 1
    requires var p := PoolSpec(execs, start, chunk, writer, s0);
      whole == Batch(outputs + p.outputs, if error.Some? then error else p.error, p.fs)
    requires Batch(outs, err, s1) == BatchSpec(execs[start..ChunkEnd(|execs|, start, chunk)], writer, s0)
    ensures var p := PoolSpec(execs, ChunkEnd(|execs|, start, chunk), chunk, writer, s1);
      var error' := if error.None? then err else error;
      whole == Batch((outputs + outs) + p.outputs, if error'.Some? then error' else p.error, p.fs)
  {
    var p := PoolSpec(execs, ChunkEnd(|execs|, start, chunk), chunk, writer, s1);
    assert (outputs + outs) + p.outputs == outputs + (outs + p.outputs);
  }

  /** A batch of one execution is that execution's step. */
  lemma BatchSingle<T, U>(e: Execution<T, U>, writer: Writer<U>, st: FsState)
    ensures var s := StepSpec(e, writer, st);
      BatchSpec([e], writer, st) ==
        if s.0.Err? then Batch([], Some(s.0.error), s.1) else Batch([s.0.value], None, s.1)
  {
    assert [e][..0] == [];
  }

  function PathSet(paths: seq<Path>): set<Path> {
    set p | p in paths
  }

  /** Whether `unlink` succeeds on every path in turn: each is present and
      none is repeated (a second `unlink` of the same path raises). */
  predicate AllUnlinkable(paths: seq<Path>, files: map<Path, string>) {
    (forall i :: 0 <= i < |paths| ==> paths[i] in files) &&
    (forall i, j :: 0 <= i < j < |paths| ==> paths[i] != paths[j])
  }

  /** `Fileset.delete`: unlink each path in turn; the first missing one raises
      and the later ones are left alone. Python iterates the `files`
      attribute, which only `init` sets (to an empty list); the path list is a
      parameter here. */
  method Delete(paths: seq<Path>, fs: FileSystem) returns (r: Result<()>)
    modifies fs
    ensures fs.dirs == old(fs.dirs)
    ensures r.Ok? <==> AllUnlinkable(paths, old(fs.files))
    ensures r.Ok? ==> fs.files == old(fs.files) - PathSet(paths)
    ensures fs.files.Keys <= old(fs.files).Keys
    ensures forall p :: p in old(fs.files) && p !in fs.files ==> p in paths
    ensures forall p :: p in fs.files ==> fs.files[p] == old(fs.files)[p]
  {
    var k := 0;
    while k < |paths|
      invariant 0 <= k <= |paths|
      invariant fs.dirs == old(fs.dirs)
      invariant fs.files == old(fs.files) - PathSet(paths[..k])
      invariant AllUnlinkable(paths[..k], old(fs.files))
    {
      var u := fs.Unlink(paths[k]);
      if u.Err? {
        assert paths[k] !in old(fs.files) || paths[k] in paths[..k];
        if paths[k] in paths[..k] {
          var j :| 0 <= j < k && paths[..k][j] == paths[k];
          assert paths[j] == paths[k];
        }
        return Err(u.error);
      }
      assert PathSet(paths[..k + 1]) == PathSet(paths[..k]) + {paths[k]};
      k := k + 1;
    }
    assert paths[..k] == paths;
    r := Ok(());
  }
}
