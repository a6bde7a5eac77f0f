# systemd-crontab-generator: crontab processing and build configuration, in Dafny

This project models two parts of systemd-crontab-generator, a tool that turns
crontab files into systemd timer and service units.

- **Processing crontab files** (`src/process.rs`), in module `Process`
  (`process.dfy`).
  - `process_crontab_file` opens one crontab and walks its stream of entries.
    It accumulates environment assignments in a name-to-value map that starts
    empty for every file. It hands each other entry (a job) to the unit
    generator, together with the map as it stands at that point. Every
    generator failure, I/O error and parse error is logged as a warning, and
    the loop goes on.
  - `process_crontab_dir` filters a directory listing and processes the
    surviving files in listing order. A listing that cannot be read, or a
    single failed listing item, fails the whole directory with one warning.
- **Build-time configuration** (`build.rs`), in module `Build` (`build.dfy`).
  - The install paths handed to the templates. Each one comes from its
    override variable or from a default built on the resolved prefix,
    datadir or libdir.
  - The named schedules enabled by cargo features.
  - The three unit files (`cron-<schedule>.target`, `.timer`, `.service`)
    compiled for each schedule.
  - The choice of generic templates (`*.in`, except the per-schedule ones)
    and the name of each template's output.

The outside world is supplied, never touched:

- The directory listing, the crontab reader and the unit generator are the
  three oracles of a `Process.World`.
- What processing does to the world is returned as `Process.Effects`. That
  value holds the trace of generator calls (job, environment snapshot, crontab
  path, destination) and the list of warnings, in order.
- The build environment is a `map<string, string>`.
- Template rendering is recorded as a `Build.Compile`. It holds the template
  path, the output file name and the render data the template was given.

Each method that mirrors an imperative function of the source is proved equal
to a specification function:

- `ProcessCrontabFile` is proved against `FileRun`.
- `ProcessCrontabDir` is proved against `DirRun`.
- `ProcessFiles` is proved against `FilesRun`.
- `BuildRenderData` is proved against `RenderDataOf`.
- `RenderSchedules` is proved against `ScheduleCompiles` and `DataAfterSchedules`.
- `CompileTemplates` is proved against `TemplatePass`.
- `BuildMain` is proved against `BuildRun`.

The lemmas state the promised properties about those functions.

Behaviour of the code worth noting:

- A parse error in a crontab entry logs "skipping file … due to parsing error".
  The loop still continues with the next entry (src/process.rs:64-71).
- A listing entry whose metadata cannot be read is kept, not excluded
  (src/process.rs:23).
- A failed listing item fails the whole directory (src/process.rs:25-30).
- The generic unit templates are rendered with "schedule" still set to the
  last selected schedule (build.rs:40-55).

## Model

| member | source | states |
|---|---|---|
| `Process.ProcessCrontabFile` | src/process.rs:39-78 | Processing one file has exactly the effects of `FileRun`. An unopenable file gives one warning. Otherwise the entries are folded from an empty environment. |
| `Process.EnvIsLastAssignment` | src/process.rs:46-51 | The environment after a run of entries holds a name iff some entry assigns it. It then holds the value of the last assignment to that name. |
| `Process.OneCallPerJob` | src/process.rs:47-55 | The number of generator calls equals the number of job entries. Assignments and errors make no call. |
| `Process.CallForJob` | src/process.rs:47-52 | The job at position k makes call number `CountJobs(es[..k])`. That call carries the job, the crontab path, the destination and the environment built by exactly the entries before it. |
| `Process.CallsInStreamOrder` | src/process.rs:47-52 | A job earlier in the stream makes an earlier call. |
| `Process.CallOrigin` | src/process.rs:44-55 | Every call comes from a job entry of the same file. It carries the environment of the entries before that job. |
| `Process.WarningsCounted` | src/process.rs:52-72 | The warnings number exactly the I/O and parse errors plus the failed generator calls. |
| `Process.ErrorsKeepEnv` | src/process.rs:48-72 | Error items do not change the environment: it equals the environment of the successfully parsed entries alone. |
| `Process.ErrorsAreSkipped` | src/process.rs:47-73 | Dropping the error items from the stream leaves the calls unchanged. Each error item adds exactly one warning, so no error stops later entries. |
| `Process.UnopenableFile` | src/process.rs:75-77 | A file that cannot be opened gives exactly one warning and no generator call. |
| `Process.Collect` | src/process.rs:17-30 | The filtered listing fails iff some item is an error, and it fails with the first error. Otherwise it holds one path per kept item. Kept means the name exists, is UTF-8 and is not hidden, and the metadata says regular file or could not be read. |
| `Process.CollectKeepsInOrder` | src/process.rs:17-27 | On success, the kept item at position k is file number `CountKept(items[..k])`, and that file's path is the directory joined with the item's name. |
| `Process.KeptInListingOrder` | src/process.rs:18-27 | A kept item earlier in the listing has a smaller file number than any later kept item, so with `CollectKeepsInOrder` the kept files appear once each, in listing order. |
| `Process.ProcessFiles` | src/process.rs:32-34 | Processing a list of files one after the other has exactly the effects of `FilesRun`: each file's effects, concatenated in list order. |
| `Process.ProcessCrontabDir` | src/process.rs:12-37 | Processing a directory has exactly the effects of `DirRun`. A failure gives one warning. Otherwise each kept file is processed in order. |
| `Process.DirFailureIsOneWarning` | src/process.rs:17-30 | An unreadable directory or any failed listing item gives no generator call and exactly one directory warning. |
| `Process.NoEnvAcrossFiles` | src/process.rs:32-52 | Every call made over a list of files carries only the environment of its own crontab, built by the entries that precede the job in that file. |
| `Build.Select` | build.rs:156-160 | The selected names keep table order. A name is selected iff its row's variable is set. |
| `Build.RequiredSchedules` | build.rs:143-161 | The enabled schedules are a subsequence of boot, hourly, daily, weekly, monthly, yearly, minutely, quarterly, semi-annually, with no duplicates. |
| `Build.RequiredSchedulesExact` | build.rs:144-158 | A schedule is selected iff its own CARGO_FEATURE_SCHED_* variable is set. |
| `Build.AllSchedulesDistinct` | build.rs:144-154 | The nine schedule names are pairwise distinct. |
| `Build.RenderDataOf` | build.rs:91-141 | The render data has exactly the twelve keys. prefix defaults to /usr/local. bindir, confdir, datadir and libdir are their override, else prefix plus /bin, /etc, /share or /lib. mandir and docdir are their override, else the resolved datadir plus /man or /doc/systemd-cron. unitdir is its override, else the resolved libdir plus /systemd/system. statedir defaults to /var/spool/cron and runparts to /usr/bin/run-parts. persistent is true iff CARGO_FEATURE_PERSISTENT is set. |
| `Build.BuildRenderData` | build.rs:91-141 | The successive inserts build exactly `RenderDataOf(env)`. |
| `Build.DirsUnderPrefix` | build.rs:94-122 | An install directory that is not overridden, directly or through the datadir or libdir it is built on, lies under prefix + "/". |
| `Build.OutputNameInjective` | build.rs:44-47 | `cron-{s}.{u}` names are injective over schedules and the three unit kinds. |
| `Build.RenderSchedules` | build.rs:40-53 | The schedule loop compiles exactly `ScheduleCompiles`. Afterwards "schedule" holds the last schedule and "schedules" the whole list. |
| `Build.ScheduleCompileAt` | build.rs:40-50 | There are 3 compilations per schedule. Compilation 3i+k renders `units/cron-schedule.{unit k}.in` into `cron-{schedule i}.{unit k}`, with "schedule" set to schedule i. |
| `Build.ScheduleOutputsDistinct` | build.rs:40-50 | For distinct schedules, no two per-schedule compilations write the same output file. |
| `Build.ScheduleTemplatesNotGeneric` | build.rs:84 | The generic pass never compiles a `cron-schedule.*.in` template. |
| `Build.TemplateOutput` | build.rs:85 | The output name plus ".in" gives back the template name, and it is 3 characters shorter. |
| `Build.TemplatePassCompletes` | build.rs:81-83 | The generic pass completes iff every directory item is readable and has a Unicode name. |
| `Build.TemplatePassSound` | build.rs:81-88 | Every generic compilation comes from a readable item whose name ends in ".in" and does not start with "cron-schedule.", and every item before it is readable, so nothing after the first unreadable item is compiled. Its output is that name minus ".in", and it gets the data passed in. |
| `Build.TemplatePassComplete` | build.rs:81-88 | Every generic template before the first unreadable item is compiled. |
| `Build.CompileTemplates` | build.rs:80-89 | The directory pass performs exactly the compilations of `TemplatePass` and panics exactly when it does. |
| `Build.BuildMain` | build.rs:16-57 | The compilations of the build script come in this order: the per-schedule units, then the generic unit templates, then, if those completed, the man page templates. |

## Left out

- Filesystem reads are modelled only as supplied values: `read_dir`, `metadata` and opening crontabs.
- BuildMain: the build script's `create_dir_all` (build.rs:21-22) and `File::create` (build.rs:26) are not modelled; they are assumed to succeed, although a panic there would stop the build before any template is compiled.
- Handlebars template compilation and rendering are foreign code. A compilation is recorded with its render data. The unwraps inside `compile_template` are taken to succeed.
- The build script writes `config.rs` with Rust `{:?}` escaping (build.rs:26-35). This is I/O plus string escaping, and it is not modelled.
- The `OUT_DIR` and `CARGO_MANIFEST_DIR` lookups and their unwraps (build.rs:17-22) are not modelled.
- The crontab parser of the external `cronparse` crate is not part of this model. Its stream of entry results is an input, including where it stops after an error.
- `generate_systemd_units` (in `src/generate.rs`) is not part of this model. It is an oracle returning success or an error message. Its calls are recorded. The oracle is a function, so it is deterministic: two identical calls get the same outcome, where the real generator writes files and could fail differently on a repeated call.
- The `warn!` macro is replaced by a list of typed warnings, each with its path and message. The message text is not modelled.
- A job entry is an opaque identifier. The crontab variant type parameter and its trait bounds are left out.
- `env::var` on a value that is not valid Unicode behaves as unset. The model's environment map holds only readable values.
- Render data keys are an enumeration. `Build.KeyName` gives the string each template sees.
- Paths are strings. A listed item's path is written `dir + "/" + name` (`Process.Join` and the template pass), which is `Path::join` when `dir` does not already end in a slash. Outputs are file names inside their output directory.
