/**
  The per-file crontab processing loop and the directory scan of the
  generator (src/process.rs).

  Nothing here touches a file system: the directory listing, the crontab
  reader and the unit generator are supplied as a `World` of oracles, and
  what the Rust code does to the outside world (calls to the unit generator,
  warnings written to the log) is returned as an `Effects` value.
 */
module Process {

  datatype Option<T> = None | Some(value: T)
  datatype Result<T> = Ok(value: T) | Err(msg: string)

  /** The name -> value environment a crontab file accumulates. */
  type Env = map<string, string>

  /** A successfully parsed crontab line: an assignment or anything else (a job). */
  datatype Entry = EnvVar(name: string, value: string) | Job(id: nat)

  /** One item of the entry stream the crontab reader yields. */
  datatype EntryResult =
    | Parsed(entry: Entry)
    | IoErr(msg: string)
    | ParseErr(msg: string)

  /** What opening a crontab file gives: the stream of its entries, or an error. */
  datatype OpenResult = Opened(entries: seq<EntryResult>) | OpenErr(msg: string)

  /** The final path component of a listed path: absent, not UTF-8, or a UTF-8 string. */
  datatype FileName = NoName | NotUtf8 | Utf8(s: string)

  /** A listed directory entry: the final component of its path (the path
      itself is the directory joined with it), and whether its metadata says
      "regular file" (None when the metadata lookup failed). */
  datatype DirEntry = DirEntry(name: FileName, isFile: Option<bool>)

  datatype ListItem = Listed(entry: DirEntry) | ListErr(msg: string)

  /** The result of reading a directory: its items in listing order, or an error. */
  datatype DirListing = Listing(items: seq<ListItem>) | Unreadable(msg: string)

  /** One invocation of the unit generator: the job, the environment it sees,
      the crontab file it came from and the destination directory. */
  datatype Call = Call(job: nat, env: Env, path: string, dst: string)

  datatype Outcome = Pass | Fail(msg: string)

  datatype Warning =
    | GenFailed(path: string, msg: string)
    | AccessFailed(path: string, msg: string)
    | ParseSkipped(path: string, msg: string)
    | OpenFailed(path: string, msg: string)
    | DirFailed(dir: string, msg: string)

  /** Everything a run does to the outside world, in order. */
  datatype Effects = Effects(calls: seq<Call>, warnings: seq<Warning>)

  type Generator = Call -> Outcome

  /** The outside world as the processing code sees it. */
  datatype World = World(readDir: string -> DirListing, open: string -> OpenResult, generate: Generator)

  const NoEffects := Effects([], [])

  function Then(a: Effects, b: Effects): Effects
  {
    Effects(a.calls + b.calls, a.warnings + b.warnings)
  }

  // ---------------------------------------------------------------------
  // One crontab file
  // ---------------------------------------------------------------------

  function Assign(env: Env, r: EntryResult): Env
  {
    if r.Parsed? && r.entry.EnvVar? then env[r.entry.name := r.entry.value] else env
  }

  /** The environment after the entries `es`, starting from the empty one. */
  function EnvOf(es: seq<EntryResult>): Env
    decreases |es|
  {
    if es == [] then map[] else Assign(EnvOf(es[..|es| - 1]), es[|es| - 1])
  }

  /** What handling one stream item does, given the environment as it stands. */
  function StepEffects(gen: Generator, path: string, dst: string, env: Env, r: EntryResult): Effects
  {
    match r
    case Parsed(EnvVar(_, _)) => NoEffects
    case Parsed(Job(id)) =>
      var c := Call(id, env, path, dst);
      var o := gen(c);
      Effects([c], if o.Fail? then [GenFailed(path, o.msg)] else [])
    case IoErr(m) => Effects([], [AccessFailed(path, m)])
    case ParseErr(m) => Effects([], [ParseSkipped(path, m)])
  }

  /** What handling the stream `es` of one file does. */
  function EntriesRun(gen: Generator, path: string, dst: string, es: seq<EntryResult>): Effects
    decreases |es|
  {
    if es == [] then NoEffects
    else
      var init := es[..|es| - 1];
      Then(EntriesRun(gen, path, dst, init), StepEffects(gen, path, dst, EnvOf(init), es[|es| - 1]))
  }

  /** What processing the crontab file at `path` does. */
  function FileRun(w: World, path: string, dst: string): Effects
  {
    match w.open(path)
    case OpenErr(m) => Effects([], [OpenFailed(path, m)])
    case Opened(es) => EntriesRun(w.generate, path, dst, es)
  }

  /** process_crontab_file: a fresh environment, then one pass over the entries. */
  method ProcessCrontabFile(w: World, path: string, dst: string) returns (fx: Effects)
    ensures fx == FileRun(w, path, dst)
  {
    match w.open(path)
    case OpenErr(m) =>
      fx := Effects([], [OpenFailed(path, m)]);
    case Opened(es) =>
      var env: Env := map[];
      var calls: seq<Call> := [];
      var warnings: seq<Warning> := [];
      var i := 0;
      while i < |es|
        invariant 0 <= i <= |es|
        invariant env == EnvOf(es[..i])
        invariant Effects(calls, warnings) == EntriesRun(w.generate, path, dst, es[..i])
      {
        assert es[..i + 1][..i] == es[..i];
        match es[i] {
          case Parsed(EnvVar(name, value)) =>
            env := env[name := value];
          case Parsed(Job(id)) =>
            var c := Call(id, env, path, dst);
            calls := calls + [c];
            var o := w.generate(c);
            if o.Fail? {
              warnings := warnings + [GenFailed(path, o.msg)];
            }
          case IoErr(m) =>
            warnings := warnings + [AccessFailed(path, m)];
          case ParseErr(m) =>
            warnings := warnings + [ParseSkipped(path, m)];
        }
        i := i + 1;
      }
      assert es[..i] == es;
      fx := Effects(calls, warnings);
  }

  // ---------------------------------------------------------------------
  // Properties of one file
  // ---------------------------------------------------------------------

  predicate AssignsTo(r: EntryResult, name: string)
  {
    r.Parsed? && r.entry.EnvVar? && r.entry.name == name
  }

  /** The environment holds a name iff some entry assigns it, and then it holds
      the value of the LAST such assignment. */
  lemma {:induction false} EnvIsLastAssignment(es: seq<EntryResult>, name: string)
    ensures name in EnvOf(es) <==> exists k :: 0 <= k < |es| && AssignsTo(es[k], name)
    ensures name in EnvOf(es) ==>
      exists k :: 0 <= k < |es| && es[k] == Parsed(EnvVar(name, EnvOf(es)[name]))
        && forall k' :: k < k' < |es| ==> !AssignsTo(es[k'], name)
    decreases |es|
  {
    if es != [] {
      var n := |es| - 1;
      var init := es[..n];
      EnvIsLastAssignment(init, name);
      assert forall k :: 0 <= k < n ==> init[k] == es[k];
      if AssignsTo(es[n], name) {
        assert es[n] == Parsed(EnvVar(name, EnvOf(es)[name]));
      } else if name in EnvOf(init) {
        var k :| 0 <= k < n && init[k] == Parsed(EnvVar(name, EnvOf(init)[name]))
          && forall k' :: k < k' < n ==> !AssignsTo(init[k'], name);
        assert es[k] == Parsed(EnvVar(name, EnvOf(es)[name]));
      }
    }
  }

  function CountJobs(es: seq<EntryResult>): nat
    decreases |es|
  {
    if es == [] then 0
    else CountJobs(es[..|es| - 1]) + (if es[|es| - 1].Parsed? && es[|es| - 1].entry.Job? then 1 else 0)
  }

  /** Exactly one generator call per job entry, none for anything else. */
  lemma {:induction false} OneCallPerJob(gen: Generator, path: string, dst: string, es: seq<EntryResult>)
    ensures |EntriesRun(gen, path, dst, es).calls| == CountJobs(es)
    decreases |es|
  {
    if es != [] {
      OneCallPerJob(gen, path, dst, es[..|es| - 1]);
    }
  }

  /** The job at position k makes call number CountJobs(es[..k]), with the
      environment built by exactly the entries before it in the same file. */
  lemma {:induction false} CallForJob(gen: Generator, path: string, dst: string, es: seq<EntryResult>, k: nat)
    requires k < |es| && es[k].Parsed? && es[k].entry.Job?
    ensures CountJobs(es[..k]) < |EntriesRun(gen, path, dst, es).calls|
    ensures EntriesRun(gen, path, dst, es).calls[CountJobs(es[..k])]
         == Call(es[k].entry.id, EnvOf(es[..k]), path, dst)
    decreases |es|
  {
    var n := |es| - 1;
    var init := es[..n];
    if k == n {
      OneCallPerJob(gen, path, dst, init);
    } else {
      CallForJob(gen, path, dst, init, k);
      assert init[..k] == es[..k];
    }
  }

  /** Jobs that come later in the file make later calls. */
  lemma {:induction false} CallsInStreamOrder(es: seq<EntryResult>, k1: nat, k2: nat)
    requires k1 < k2 <= |es| && es[k1].Parsed? && es[k1].entry.Job?
    ensures CountJobs(es[..k1]) < CountJobs(es[..k2])
    decreases k2
  {
    if k2 == k1 + 1 {
      assert es[..k2][..k1] == es[..k1];
    } else {
      CallsInStreamOrder(es, k1, k2 - 1);
      assert es[..k2][..k2 - 1] == es[..k2 - 1];
    }
  }

  /** Every call comes from a job entry of this file and carries the
      environment of the entries before that job. */
  lemma {:induction false} CallOrigin(gen: Generator, path: string, dst: string, es: seq<EntryResult>, j: nat)
    requires j < |EntriesRun(gen, path, dst, es).calls|
    ensures var c := EntriesRun(gen, path, dst, es).calls[j];
      c.path == path && c.dst == dst &&
      exists k :: 0 <= k < |es| && es[k] == Parsed(Job(c.job)) && c.env == EnvOf(es[..k])
    decreases |es|
  {
    var n := |es| - 1;
    var init := es[..n];
    var c := EntriesRun(gen, path, dst, es).calls[j];
    if j < |EntriesRun(gen, path, dst, init).calls| {
      CallOrigin(gen, path, dst, init, j);
      var k :| 0 <= k < |init| && init[k] == Parsed(Job(c.job)) && c.env == EnvOf(init[..k]);
      assert init[..k] == es[..k];
      assert es[k] == Parsed(Job(c.job));
    } else {
      assert es[..n] == init;
      assert es[n] == Parsed(Job(c.job));
    }
  }

  function CountErrors(es: seq<EntryResult>): nat
    decreases |es|
  {
    if es == [] then 0
    else CountErrors(es[..|es| - 1]) + (if es[|es| - 1].Parsed? then 0 else 1)
  }

  function CountFailed(gen: Generator, calls: seq<Call>): nat
    decreases |calls|
  {
    if calls == [] then 0
    else CountFailed(gen, calls[..|calls| - 1]) + (if gen(calls[|calls| - 1]).Fail? then 1 else 0)
  }

  lemma {:induction false} CountFailedAppend(gen: Generator, a: seq<Call>, b: seq<Call>)
    ensures CountFailed(gen, a + b) == CountFailed(gen, a) + CountFailed(gen, b)
    decreases |b|
  {
    if b != [] {
      var m := |b| - 1;
      assert (a + b)[..|a + b| - 1] == a + b[..m];
      assert (a + b)[|a + b| - 1] == b[m];
      CountFailedAppend(gen, a, b[..m]);
      assert CountFailed(gen, a + b) == CountFailed(gen, a + b[..m]) + (if gen(b[m]).Fail? then 1 else 0);
    } else {
      assert a + b == a;
    }
  }

  lemma StepWarnings(gen: Generator, path: string, dst: string, env: Env, r: EntryResult)
    ensures var step := StepEffects(gen, path, dst, env, r);
      |step.warnings| == (if r.Parsed? then 0 else 1) + CountFailed(gen, step.calls)
  {
  }

  /** One warning per I/O or parse error and one per failed generator call, no other. */
  lemma {:induction false} WarningsCounted(gen: Generator, path: string, dst: string, es: seq<EntryResult>)
    ensures var fx := EntriesRun(gen, path, dst, es);
      |fx.warnings| == CountErrors(es) + CountFailed(gen, fx.calls)
    decreases |es|
  {
    if es != [] {
      var n := |es| - 1;
      var init := es[..n];
      WarningsCounted(gen, path, dst, init);
      var step := StepEffects(gen, path, dst, EnvOf(init), es[n]);
      CountFailedAppend(gen, EntriesRun(gen, path, dst, init).calls, step.calls);
      StepWarnings(gen, path, dst, EnvOf(init), es[n]);
    }
  }

  /** The entries that parsed, in order. */
  function ParsedOnly(es: seq<EntryResult>): (r: seq<EntryResult>)
    ensures forall i :: 0 <= i < |r| ==> r[i].Parsed?
    decreases |es|
  {
    if es == [] then []
    else ParsedOnly(es[..|es| - 1]) + (if es[|es| - 1].Parsed? then [es[|es| - 1]] else [])
  }

  lemma {:induction false} ErrorsKeepEnv(es: seq<EntryResult>)
    ensures EnvOf(es) == EnvOf(ParsedOnly(es))
    decreases |es|
  {
    if es != [] {
      var n := |es| - 1;
      var init := es[..n];
      ErrorsKeepEnv(init);
      var p := ParsedOnly(es);
      if es[n].Parsed? {
        assert p == ParsedOnly(init) + [es[n]];
        assert p[..|p| - 1] == ParsedOnly(init) && p[|p| - 1] == es[n];
        assert EnvOf(p) == Assign(EnvOf(ParsedOnly(init)), es[n]);
      } else {
        assert p == ParsedOnly(init);
      }
    }
  }

  /** Error items neither change the environment nor hold back any later
      entry: dropping them from the stream gives exactly the same calls, and
      each of them adds one warning. */
  lemma {:induction false} ErrorsAreSkipped(gen: Generator, path: string, dst: string, es: seq<EntryResult>)
    ensures EntriesRun(gen, path, dst, es).calls == EntriesRun(gen, path, dst, ParsedOnly(es)).calls
    ensures |EntriesRun(gen, path, dst, es).warnings|
         == |EntriesRun(gen, path, dst, ParsedOnly(es)).warnings| + CountErrors(es)
    decreases |es|
  {
    if es != [] {
      var n := |es| - 1;
      var init := es[..n];
      ErrorsAreSkipped(gen, path, dst, init);
      var p := ParsedOnly(es);
      if es[n].Parsed? {
        assert p == ParsedOnly(init) + [es[n]];
        assert p[..|p| - 1] == ParsedOnly(init) && p[|p| - 1] == es[n];
        ErrorsKeepEnv(init);
      } else {
        assert p == ParsedOnly(init);
      }
    }
  }

  /** A file that cannot be opened gives one warning and no generator call. */
  lemma UnopenableFile(w: World, path: string, dst: string)
    requires w.open(path).OpenErr?
    ensures FileRun(w, path, dst).calls == []
    ensures FileRun(w, path, dst).warnings == [OpenFailed(path, w.open(path).msg)]
  {
  }

  // ---------------------------------------------------------------------
  // A directory of crontab files
  // ---------------------------------------------------------------------

  predicate IsHidden(name: string)
  {
    |name| > 0 && name[0] == '.'
  }

  /** The listing filter: a name that exists, is UTF-8 and is not hidden, and
      metadata that says "regular file" or could not be read. Errors pass. */
  predicate Keep(item: ListItem)
  {
    match item
    case ListErr(_) => true
    case Listed(e) =>
      e.name.Utf8? && !IsHidden(e.name.s) && (e.isFile.None? || e.isFile.value)
  }

  function CountKept(items: seq<ListItem>): nat
    decreases |items|
  {
    if items == [] then 0
    else CountKept(items[..|items| - 1]) + (if Keep(items[|items| - 1]) then 1 else 0)
  }

  /** The path of a listed entry named `name` inside `dir`. */
  function Join(dir: string, name: string): string
  {
    dir + "/" + name
  }

  /** The filter followed by collecting into a Result: the first error item
      fails the whole listing, otherwise the kept paths in listing order. */
  function Collect(dir: string, items: seq<ListItem>): (r: Result<seq<string>>)
    ensures r.Err? <==> exists i :: 0 <= i < |items| && items[i].ListErr?
    ensures r.Err? ==> exists i :: 0 <= i < |items| && items[i] == ListErr(r.msg)
                                   && forall j :: 0 <= j < i ==> items[j].Listed?
    ensures r.Ok? ==> |r.value| == CountKept(items)
    decreases |items|
  {
    if items == [] then Ok([])
    else
      var n := |items| - 1;
      var init := Collect(dir, items[..n]);
      assert forall j :: 0 <= j < n ==> items[..n][j] == items[j];
      if init.Err? then init
      else match items[n]
        case ListErr(m) => Err(m)
        case Listed(e) => Ok(init.value + (if Keep(items[n]) then [Join(dir, e.name.s)] else []))
  }

  /** On success, the kept item at position k is file number CountKept(items[..k]). */
  lemma {:induction false} CollectKeepsInOrder(dir: string, items: seq<ListItem>, k: nat)
    requires Collect(dir, items).Ok? && k < |items| && Keep(items[k])
    ensures items[k].Listed? && items[k].entry.name.Utf8?
    ensures CountKept(items[..k]) < |Collect(dir, items).value|
    ensures Collect(dir, items).value[CountKept(items[..k])] == Join(dir, items[k].entry.name.s)
    decreases |items|
  {
    var n := |items| - 1;
    var init := items[..n];
    assert forall j :: 0 <= j < n ==> init[j] == items[j];
    if k == n {
      assert items[..k] == init;
    } else {
      CollectKeepsInOrder(dir, init, k);
      assert init[..k] == items[..k];
    }
  }

  /** Items kept earlier in the listing come earlier among the kept files. */
  lemma {:induction false} KeptInListingOrder(items: seq<ListItem>, k1: nat, k2: nat)
    requires k1 < k2 <= |items| && Keep(items[k1])
    ensures CountKept(items[..k1]) < CountKept(items[..k2])
    decreases k2
  {
    if k2 == k1 + 1 {
      assert items[..k2][..k1] == items[..k1];
    } else {
      KeptInListingOrder(items, k1, k2 - 1);
      assert items[..k2][..k2 - 1] == items[..k2 - 1];
    }
  }

  /** What processing the files `paths`, one after the other, does. */
  function FilesRun(w: World, paths: seq<string>, dst: string): Effects
    decreases |paths|
  {
    if paths == [] then NoEffects
    else Then(FilesRun(w, paths[..|paths| - 1], dst), FileRun(w, paths[|paths| - 1], dst))
  }

  /** What processing the directory `srcdir` does. */
  function DirRun(w: World, srcdir: string, dst: string): Effects
  {
    match w.readDir(srcdir)
    case Unreadable(m) => Effects([], [DirFailed(srcdir, m)])
    case Listing(items) =>
      match Collect(srcdir, items)
      case Err(m) => Effects([], [DirFailed(srcdir, m)])
      case Ok(paths) => FilesRun(w, paths, dst)
  }

  /** The `for file in files` loop of process_crontab_dir. */
  method ProcessFiles(w: World, files: seq<string>, dst: string) returns (fx: Effects)
    ensures fx == FilesRun(w, files, dst)
  {
    fx := NoEffects;
    var i := 0;
    while i < |files|
      invariant 0 <= i <= |files|
      invariant fx == FilesRun(w, files[..i], dst)
    {
      assert files[..i + 1][..i] == files[..i];
      var one := ProcessCrontabFile(w, files[i], dst);
      fx := Then(fx, one);
      i := i + 1;
    }
    assert files[..i] == files;
  }

  /** process_crontab_dir: filter the listing, then process the files in order. */
  method ProcessCrontabDir(w: World, srcdir: string, dst: string) returns (fx: Effects)
    ensures fx == DirRun(w, srcdir, dst)
  {
    match w.readDir(srcdir)
    case Unreadable(m) =>
      fx := Effects([], [DirFailed(srcdir, m)]);
    case Listing(items) =>
      match Collect(srcdir, items)
      case Err(m) =>
        fx := Effects([], [DirFailed(srcdir, m)]);
      case Ok(files) =>
        fx := ProcessFiles(w, files, dst);
  }

  /** An unreadable directory or any failed listing item: one warning, nothing processed. */
  lemma DirFailureIsOneWarning(w: World, srcdir: string, dst: string)
    requires w.readDir(srcdir).Unreadable?
          || exists i :: 0 <= i < |w.readDir(srcdir).items| && w.readDir(srcdir).items[i].ListErr?
    ensures DirRun(w, srcdir, dst).calls == []
    ensures |DirRun(w, srcdir, dst).warnings| == 1 && DirRun(w, srcdir, dst).warnings[0].DirFailed?
  {
  }

  /** Every call made while processing a directory carries only the
      environment of its own crontab file, built by the entries that precede
      the job in that file: no assignment crosses from one file to another. */
  lemma {:induction false} NoEnvAcrossFiles(w: World, paths: seq<string>, dst: string, j: nat)
    requires j < |FilesRun(w, paths, dst).calls|
    ensures var c := FilesRun(w, paths, dst).calls[j];
      c.path in paths && w.open(c.path).Opened? &&
      var es := w.open(c.path).entries;
      exists k :: 0 <= k < |es| && es[k] == Parsed(Job(c.job)) && c.env == EnvOf(es[..k])
    decreases |paths|
  {
    var n := |paths| - 1;
    var before := FilesRun(w, paths[..n], dst);
    if j < |before.calls| {
      NoEnvAcrossFiles(w, paths[..n], dst, j);
    } else {
      var p := paths[n];
      match w.open(p)
      case Opened(es) =>
        CallOrigin(w.generate, p, dst, es, j - |before.calls|);
      case OpenErr(_) =>
    }
  }
}
