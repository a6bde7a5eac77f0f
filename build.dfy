/**
  The build-time configuration of the generator (build.rs): install paths
  derived from the build environment, the named schedules selected by cargo
  features, the per-schedule unit file names and the selection of generic
  templates.

  The build environment is a map from variable name to value (a variable is
  "set" when it is a key); template rendering is recorded, not performed: a
  `Compile` names the template, the output file name inside the output
  directory, and the render data as it stood when the template was compiled.
 */
module Build {

  type Env = map<string, string>

  /** The value of `key`, or `default` when it is unset. */
  function Var(env: Env, key: string, default: string): string
  {
    if key in env then env[key] else default
  }

  datatype Json = Str(s: string) | Bool(b: bool) | StrArray(items: seq<string>)

  /** The keys of the render data; `KeyName` is the name templates use. */
  datatype Key =
    | PackageKey | BinDir | ConfDir | ManDirKey | DocDir | UnitDir | LibDir | DataDir
    | Prefix | StateDir | RunParts | Persistent | Schedule | Schedules

  function KeyName(k: Key): string
  {
    match k
    case PackageKey => "package"
    case BinDir => "bindir"
    case ConfDir => "confdir"
    case ManDirKey => "mandir"
    case DocDir => "docdir"
    case UnitDir => "unitdir"
    case LibDir => "libdir"
    case DataDir => "datadir"
    case Prefix => "prefix"
    case StateDir => "statedir"
    case RunParts => "runparts"
    case Persistent => "persistent"
    case Schedule => "schedule"
    case Schedules => "schedules"
  }

  type RenderData = map<Key, Json>

  const Package: string := "systemd-cron"
  const UnitsDir: string := "units"
  const ManDir: string := "man"

  predicate StartsWith(s: string, prefix: string)
  {
    |prefix| <= |s| && s[..|prefix|] == prefix
  }

  predicate EndsWith(s: string, suffix: string)
  {
    |suffix| <= |s| && s[|s| - |suffix|..] == suffix
  }

  predicate Distinct(s: seq<string>)
  {
    forall i, j :: 0 <= i < j < |s| ==> s[i] != s[j]
  }

  /** `a` is `b` with some elements left out, the rest kept in order. */
  predicate IsSubsequence(a: seq<string>, b: seq<string>)
    decreases |b|
  {
    a == [] ||
    (b != [] && ((a[0] == b[0] && IsSubsequence(a[1..], b[1..])) || IsSubsequence(a, b[1..])))
  }

  lemma {:induction false} SubsequenceMembers(a: seq<string>, b: seq<string>)
    requires IsSubsequence(a, b)
    ensures forall x :: x in a ==> x in b
    decreases |b|
  {
    if a != [] {
      if a[0] == b[0] && IsSubsequence(a[1..], b[1..]) {
        SubsequenceMembers(a[1..], b[1..]);
        assert forall x :: x in a ==> x == a[0] || x in a[1..];
      } else {
        SubsequenceMembers(a, b[1..]);
      }
    }
  }

  /** Leaving elements out of a list without repetitions gives one without repetitions. */
  lemma {:induction false} SubsequenceDistinct(a: seq<string>, b: seq<string>)
    requires IsSubsequence(a, b) && Distinct(b)
    ensures Distinct(a)
    decreases |b|
  {
    if a != [] {
      assert Distinct(b[1..]) by {
        forall i, j | 0 <= i < j < |b[1..]| ensures b[1..][i] != b[1..][j] {
          assert b[1..][i] == b[i + 1] && b[1..][j] == b[j + 1];
        }
      }
      if a[0] == b[0] && IsSubsequence(a[1..], b[1..]) {
        SubsequenceDistinct(a[1..], b[1..]);
        SubsequenceMembers(a[1..], b[1..]);
        assert b[0] !in b[1..];
        forall i, j | 0 <= i < j < |a| ensures a[i] != a[j] {
          if i == 0 {
            assert a[j] in a[1..];
          } else {
            assert a[i] == a[1..][i - 1] && a[j] == a[1..][j - 1];
          }
        }
      } else {
        SubsequenceDistinct(a, b[1..]);
      }
    }
  }

  // ---------------------------------------------------------------------
  // Named schedules selected by cargo features
  // ---------------------------------------------------------------------

  /** The feature variable that enables each named schedule, in table order. */
  const Features: seq<(string, string)> := [
    ("CARGO_FEATURE_SCHED_BOOT", "boot"),
    ("CARGO_FEATURE_SCHED_HOURLY", "hourly"),
    ("CARGO_FEATURE_SCHED_DAILY", "daily"),
    ("CARGO_FEATURE_SCHED_WEEKLY", "weekly"),
    ("CARGO_FEATURE_SCHED_MONTHLY", "monthly"),
    ("CARGO_FEATURE_SCHED_YEARLY", "yearly"),
    ("CARGO_FEATURE_SCHED_MINUTELY", "minutely"),
    ("CARGO_FEATURE_SCHED_QUARTERLY", "quarterly"),
    ("CARGO_FEATURE_SCHED_SEMI_ANNUALLY", "semi-annually")
  ]


  function Names(table: seq<(string, string)>): (r: seq<string>)
    ensures |r| == |table| && forall i :: 0 <= i < |table| ==> r[i] == table[i].1
    decreases |table|
  {
    if table == [] then [] else [table[0].1] + Names(table[1..])
  }

  /** The names of the table rows whose variable is set, in table order. */
  function Select(table: seq<(string, string)>, env: Env): (r: seq<string>)
    ensures IsSubsequence(r, Names(table))
    ensures forall s :: s in r <==> exists i :: 0 <= i < |table| && table[i].0 in env && table[i].1 == s
    decreases |table|
  {
    if table == [] then []
    else
      var rest := Select(table[1..], env);
      assert Names(table)[1..] == Names(table[1..]);
      assert forall i :: 1 <= i < |table| ==> table[1..][i - 1] == table[i];
      if table[0].0 in env then [table[0].1] + rest else rest
  }

  const AllSchedules: seq<string> :=
    ["boot", "hourly", "daily", "weekly", "monthly", "yearly", "minutely", "quarterly", "semi-annually"]

  lemma FeatureNames()
    ensures Names(Features) == AllSchedules
  {
    var r := Names(Features);
    assert forall i :: 0 <= i < |r| ==> r[i] == AllSchedules[i];
  }

  lemma AllSchedulesDistinct()
    ensures Distinct(AllSchedules)
  {
  }

  /** get_required_schedules: the enabled schedules, in table order, each once. */
  function RequiredSchedules(env: Env): (r: seq<string>)
    ensures IsSubsequence(r, AllSchedules) && Distinct(r)
  {
    var r := Select(Features, env);
    FeatureNames();
    AllSchedulesDistinct();
    SubsequenceDistinct(r, AllSchedules);
    r
  }

  /** A schedule is selected exactly when its own feature variable is set. */
  lemma RequiredSchedulesExact(env: Env, i: nat)
    requires i < |Features|
    ensures Features[i].1 in RequiredSchedules(env) <==> Features[i].0 in env
  {
    var r := RequiredSchedules(env);
    FeatureNames();
    AllSchedulesDistinct();
    if Features[i].1 in r {
      var j :| 0 <= j < |Features| && Features[j].0 in env && Features[j].1 == Features[i].1;
      assert AllSchedules[j] == AllSchedules[i];
    }
  }

  // ---------------------------------------------------------------------
  // Install paths
  // ---------------------------------------------------------------------

  const RenderKeys: set<Key> := {
    PackageKey, BinDir, ConfDir, ManDirKey, DocDir, UnitDir,
    LibDir, DataDir, Prefix, StateDir, RunParts, Persistent
  }

  /** The render data of build_render_data. Each directory is its override
      variable if set; otherwise it is built on the resolved prefix, datadir
      or libdir. */
  function RenderDataOf(env: Env): (ctx: RenderData)
    ensures ctx.Keys == RenderKeys
    ensures ctx[PackageKey] == Str(Package)
    ensures ctx[Prefix] == Str(Var(env, "PREFIX", "/usr/local"))
    ensures ctx[BinDir] == Str(Var(env, "BIN_DIR", ctx[Prefix].s + "/bin"))
    ensures ctx[ConfDir] == Str(Var(env, "CONF_DIR", ctx[Prefix].s + "/etc"))
    ensures ctx[DataDir] == Str(Var(env, "DATA_DIR", ctx[Prefix].s + "/share"))
    ensures ctx[LibDir] == Str(Var(env, "LIB_DIR", ctx[Prefix].s + "/lib"))
    ensures ctx[ManDirKey] == Str(Var(env, "MAN_DIR", ctx[DataDir].s + "/man"))
    ensures ctx[DocDir] == Str(Var(env, "DOC_DIR", ctx[DataDir].s + "/doc/" + Package))
    ensures ctx[UnitDir] == Str(Var(env, "UNIT_DIR", ctx[LibDir].s + "/systemd/system"))
    ensures ctx[StateDir] == Str(Var(env, "STATE_DIR", "/var/spool/cron"))
    ensures ctx[RunParts] == Str(Var(env, "RUN_PARTS", "/usr/bin/run-parts"))
    ensures ctx[Persistent] == Bool("CARGO_FEATURE_PERSISTENT" in env)
  {
    var prefix := Var(env, "PREFIX", "/usr/local");
    var datadir := Var(env, "DATA_DIR", prefix + "/share");
    var libdir := Var(env, "LIB_DIR", prefix + "/lib");
    map[
      PackageKey := Str(Package),
      BinDir := Str(Var(env, "BIN_DIR", prefix + "/bin")),
      ConfDir := Str(Var(env, "CONF_DIR", prefix + "/etc")),
      ManDirKey := Str(Var(env, "MAN_DIR", datadir + "/man")),
      DocDir := Str(Var(env, "DOC_DIR", datadir + "/doc/" + Package)),
      UnitDir := Str(Var(env, "UNIT_DIR", libdir + "/systemd/system")),
      LibDir := Str(libdir),
      DataDir := Str(datadir),
      Prefix := Str(prefix),
      StateDir := Str(Var(env, "STATE_DIR", "/var/spool/cron")),
      RunParts := Str(Var(env, "RUN_PARTS", "/usr/bin/run-parts")),
      Persistent := Bool("CARGO_FEATURE_PERSISTENT" in env)
    ]
  }

  /** build_render_data: the same data, built by successive inserts. */
  method BuildRenderData(env: Env) returns (ctx: RenderData)
    ensures ctx == RenderDataOf(env)
  {
    ctx := map[];
    var prefix := Var(env, "PREFIX", "/usr/local");
    ctx := ctx[PackageKey := Str(Package)];
    ctx := ctx[BinDir := Str(Var(env, "BIN_DIR", prefix + "/bin"))];
    ctx := ctx[ConfDir := Str(Var(env, "CONF_DIR", prefix + "/etc"))];
    var datadir := Var(env, "DATA_DIR", prefix + "/share");
    var libdir := Var(env, "LIB_DIR", prefix + "/lib");
    ctx := ctx[ManDirKey := Str(Var(env, "MAN_DIR", datadir + "/man"))];
    ctx := ctx[DocDir := Str(Var(env, "DOC_DIR", datadir + "/doc/" + Package))];
    ctx := ctx[UnitDir := Str(Var(env, "UNIT_DIR", libdir + "/systemd/system"))];
    ctx := ctx[LibDir := Str(libdir)];
    ctx := ctx[DataDir := Str(datadir)];
    ctx := ctx[Prefix := Str(prefix)];
    ctx := ctx[StateDir := Str(Var(env, "STATE_DIR", "/var/spool/cron"))];
    ctx := ctx[RunParts := Str(Var(env, "RUN_PARTS", "/usr/bin/run-parts"))];
    ctx := ctx[Persistent := Bool("CARGO_FEATURE_PERSISTENT" in env)];
  }

  /** The install directories and the variable that overrides each. */
  predicate IsInstallDir(key: Key)
  {
    key in {BinDir, ConfDir, DataDir, LibDir, ManDirKey, DocDir, UnitDir}
  }

  function OverrideVar(key: Key): string
  {
    match key
    case BinDir => "BIN_DIR"
    case ConfDir => "CONF_DIR"
    case DataDir => "DATA_DIR"
    case LibDir => "LIB_DIR"
    case ManDirKey => "MAN_DIR"
    case DocDir => "DOC_DIR"
    case UnitDir => "UNIT_DIR"
    case _ => ""
  }

  /** Unless an install directory is overridden (directly or through the
      datadir or libdir it is built on), it lies under the prefix. */
  lemma DirsUnderPrefix(env: Env, key: Key)
    requires IsInstallDir(key) && OverrideVar(key) !in env
    requires key == ManDirKey || key == DocDir ==> "DATA_DIR" !in env
    requires key == UnitDir ==> "LIB_DIR" !in env
    ensures key in RenderDataOf(env)
    ensures StartsWith(RenderDataOf(env)[key].s, RenderDataOf(env)[Prefix].s + "/")
  {
  }

  // ---------------------------------------------------------------------
  // Per-schedule units
  // ---------------------------------------------------------------------

  const Units: seq<string> := ["target", "timer", "service"]

  /** One template compilation: template path, output file name within the
      output directory, and the render data it was given. */
  datatype Compile = Compile(template: string, output: string, data: RenderData)

  function ScheduleTemplate(unit: string): string
  {
    UnitsDir + "/cron-schedule." + unit + ".in"
  }

  function OutputName(schedule: string, unit: string): string
  {
    "cron-" + schedule + "." + unit
  }

  /** Distinct (schedule, unit) pairs give distinct output names. */
  lemma OutputNameInjective(s1: string, u1: string, s2: string, u2: string)
    requires u1 in Units && u2 in Units
    requires OutputName(s1, u1) == OutputName(s2, u2)
    ensures s1 == s2 && u1 == u2
  {
    var n := OutputName(s1, u1);
    // the three unit names end in three different letters
    assert n[|n| - 1] == u1[|u1| - 1] && n[|n| - 1] == u2[|u2| - 1];
    assert u1 == u2;
    assert n[5..5 + |s1|] == s1;
    assert n[5..5 + |s2|] == s2;
  }

  /** The three compilations of one schedule, each seeing it as "schedule". */
  function UnitCompiles(data: RenderData, schedule: string): seq<Compile>
  {
    var d := data[Schedule := Str(schedule)];
    [ Compile(ScheduleTemplate(Units[0]), OutputName(schedule, Units[0]), d),
      Compile(ScheduleTemplate(Units[1]), OutputName(schedule, Units[1]), d),
      Compile(ScheduleTemplate(Units[2]), OutputName(schedule, Units[2]), d) ]
  }

  function ScheduleCompiles(data: RenderData, schedules: seq<string>): seq<Compile>
    decreases |schedules|
  {
    if schedules == [] then []
    else
      var n := |schedules| - 1;
      ScheduleCompiles(data, schedules[..n]) + UnitCompiles(data, schedules[n])
  }

  /** The render data after the schedule loop: "schedule" left at the last
      schedule, "schedules" holding the whole list. */
  function DataAfterSchedules(data: RenderData, schedules: seq<string>): RenderData
  {
    var d := if schedules == [] then data else data[Schedule := Str(schedules[|schedules| - 1])];
    d[Schedules := StrArray(schedules)]
  }

  /** The schedule loop of main, with its inner loop over the three unit kinds. */
  method RenderSchedules(data0: RenderData, schedules: seq<string>) returns (data: RenderData, out: seq<Compile>)
    ensures out == ScheduleCompiles(data0, schedules)
    ensures data == DataAfterSchedules(data0, schedules)
  {
    data := data0;
    out := [];
    for i := 0 to |schedules|
      invariant out == ScheduleCompiles(data0, schedules[..i])
      invariant data == if i == 0 then data0 else data0[Schedule := Str(schedules[i - 1])]
    {
      assert schedules[..i + 1][..i] == schedules[..i];
      var schedule := schedules[i];
      data := data[Schedule := Str(schedule)];
      assert data == data0[Schedule := Str(schedule)];
      for k := 0 to |Units|
        invariant out == ScheduleCompiles(data0, schedules[..i]) + UnitCompiles(data0, schedule)[..k]
      {
        assert UnitCompiles(data0, schedule)[..k + 1] == UnitCompiles(data0, schedule)[..k] + [Compile(ScheduleTemplate(Units[k]), OutputName(schedule, Units[k]), data)];
        out := out + [Compile(ScheduleTemplate(Units[k]), OutputName(schedule, Units[k]), data)];
      }
    }
    assert schedules[..|schedules|] == schedules;
    data := data[Schedules := StrArray(schedules)];
  }

  lemma {:induction false} ScheduleCompilesLength(data: RenderData, schedules: seq<string>)
    ensures |ScheduleCompiles(data, schedules)| == 3 * |schedules|
    decreases |schedules|
  {
    if schedules != [] {
      ScheduleCompilesLength(data, schedules[..|schedules| - 1]);
    }
  }

  /** Compilation 3*i+k is unit k of schedule i, rendered with "schedule" set to it. */
  lemma {:induction false} ScheduleCompileAt(data: RenderData, schedules: seq<string>, i: nat, k: nat)
    requires i < |schedules| && k < |Units|
    ensures |ScheduleCompiles(data, schedules)| == 3 * |schedules|
    ensures ScheduleCompiles(data, schedules)[3 * i + k]
         == Compile(ScheduleTemplate(Units[k]), OutputName(schedules[i], Units[k]), data[Schedule := Str(schedules[i])])
    decreases |schedules|
  {
    var n := |schedules| - 1;
    ScheduleCompilesLength(data, schedules);
    ScheduleCompilesLength(data, schedules[..n]);
    if i < n {
      ScheduleCompileAt(data, schedules[..n], i, k);
    }
  }

  /** No two schedule units are written to the same file. */
  lemma ScheduleOutputsDistinct(data: RenderData, schedules: seq<string>)
    requires Distinct(schedules)
    ensures var out := ScheduleCompiles(data, schedules);
      forall a, b :: 0 <= a < b < |out| ==> out[a].output != out[b].output
  {
    var out := ScheduleCompiles(data, schedules);
    ScheduleCompilesLength(data, schedules);
    forall a, b | 0 <= a < b < |out| ensures out[a].output != out[b].output {
      ScheduleCompileAt(data, schedules, a / 3, a % 3);
      ScheduleCompileAt(data, schedules, b / 3, b % 3);
      if out[a].output == out[b].output {
        OutputNameInjective(schedules[a / 3], Units[a % 3], schedules[b / 3], Units[b % 3]);
        assert false;
      }
    }
  }

  // ---------------------------------------------------------------------
  // Generic templates
  // ---------------------------------------------------------------------

  /** A directory item as compile_templates reads it: a Unicode file name, a
      failed entry, or a name that is not valid Unicode. */
  datatype TemplateItem = Name(s: string) | EntryErr | NotUnicode

  datatype TemplateDir = Entries(items: seq<TemplateItem>) | Unlistable

  /** The generic pass compiles `*.in` except the per-schedule templates. */
  predicate IsGenericTemplate(name: string)
  {
    EndsWith(name, ".in") && !StartsWith(name, "cron-schedule.")
  }

  /** The per-schedule templates are left to the schedule loop: the generic
      pass never compiles them. */
  lemma ScheduleTemplatesNotGeneric(unit: string)
    ensures !IsGenericTemplate("cron-schedule." + unit + ".in")
  {
  }

  /** The output name: the template name without its ".in". */
  function TemplateOutput(name: string): (r: string)
    requires EndsWith(name, ".in")
    ensures r + ".in" == name && |r| == |name| - 3
  {
    name[..|name| - 3]
  }

  /** A run of compilations; `completed` is false when the run panicked. */
  datatype Run = Run(compiles: seq<Compile>, completed: bool)

  /** The compilation one readable directory item gives rise to, if any. */
  function TemplateStep(dir: string, name: string, data: RenderData): seq<Compile>
  {
    if IsGenericTemplate(name) then [Compile(dir + "/" + name, TemplateOutput(name), data)] else []
  }

  /** What compile_templates does with the items of `dir`, in order, up to
      the first item it cannot read. */
  function TemplatePass(dir: string, items: seq<TemplateItem>, data: RenderData): Run
    decreases |items|
  {
    if items == [] then Run([], true)
    else
      var rest := TemplatePass(dir, items[1..], data);
      match items[0]
      case Name(n) => Run(TemplateStep(dir, n, data) + rest.compiles, rest.completed)
      case EntryErr => Run([], false)
      case NotUnicode => Run([], false)
  }

  /** The pass completes exactly when every item of the directory is readable. */
  lemma {:induction false} TemplatePassCompletes(dir: string, items: seq<TemplateItem>, data: RenderData)
    ensures TemplatePass(dir, items, data).completed <==> forall i :: 0 <= i < |items| ==> items[i].Name?
    decreases |items|
  {
    if items != [] {
      TemplatePassCompletes(dir, items[1..], data);
      assert forall i :: 1 <= i < |items| ==> items[1..][i - 1] == items[i];
    }
  }

  predicate GeneratedBy(c: Compile, dir: string, item: TemplateItem)
  {
    item.Name? && IsGenericTemplate(item.s) && c.template == dir + "/" + item.s && c.output + ".in" == item.s
  }

  /** Every compilation comes from a generic template of the directory that
      precedes every unreadable item, its output being the template name
      without ".in", rendered with `data`. */
  lemma {:induction false} TemplatePassSound(dir: string, items: seq<TemplateItem>, data: RenderData, c: Compile)
    requires c in TemplatePass(dir, items, data).compiles
    ensures c.data == data
    ensures exists i :: 0 <= i < |items| && GeneratedBy(c, dir, items[i])
                         && forall j :: 0 <= j < i ==> items[j].Name?
    decreases |items|
  {
    var n := items[0].s;
    if c in TemplateStep(dir, n, data) {
      assert GeneratedBy(c, dir, items[0]);
    } else {
      TemplatePassSound(dir, items[1..], data, c);
      var i :| 0 <= i < |items[1..]| && GeneratedBy(c, dir, items[1..][i])
               && forall j :: 0 <= j < i ==> items[1..][j].Name?;
      assert items[1..][i] == items[i + 1];
      assert forall j :: 1 <= j < i + 1 ==> items[j] == items[1..][j - 1];
    }
  }

  /** Every generic template that comes before the first unreadable item is compiled. */
  lemma {:induction false} TemplatePassComplete(dir: string, items: seq<TemplateItem>, data: RenderData, i: nat)
    requires i < |items| && items[i].Name? && IsGenericTemplate(items[i].s)
    requires forall j :: 0 <= j < i ==> items[j].Name?
    ensures Compile(dir + "/" + items[i].s, TemplateOutput(items[i].s), data) in TemplatePass(dir, items, data).compiles
    decreases |items|
  {
    if i > 0 {
      assert items[1..][i - 1] == items[i];
      assert forall j :: 0 <= j < i - 1 ==> items[1..][j] == items[j + 1];
      TemplatePassComplete(dir, items[1..], data, i - 1);
    }
  }

  function CompileTemplatesRun(dir: string, listing: TemplateDir, data: RenderData): Run
  {
    match listing
    case Unlistable => Run([], false)
    case Entries(items) => TemplatePass(dir, items, data)
  }

  /** compile_templates: one pass over the directory, stopping at the first
      entry it cannot read. */
  method CompileTemplates(dir: string, listing: TemplateDir, data: RenderData) returns (out: seq<Compile>, completed: bool)
    ensures Run(out, completed) == CompileTemplatesRun(dir, listing, data)
  {
    out := [];
    match listing
    case Unlistable =>
      completed := false;
    case Entries(items) =>
      var i := 0;
      while i < |items|
        invariant 0 <= i <= |items|
        invariant TemplatePass(dir, items, data)
               == Run(out + TemplatePass(dir, items[i..], data).compiles, TemplatePass(dir, items[i..], data).completed)
      {
        assert items[i..][1..] == items[i + 1..];
        match items[i] {
          case Name(name) =>
            out := out + TemplateStep(dir, name, data);
          case EntryErr =>
            completed := false;
            return;
          case NotUnicode =>
            completed := false;
            return;
        }
        i := i + 1;
      }
      completed := true;
  }

  // ---------------------------------------------------------------------
  // main
  // ---------------------------------------------------------------------

  /** Every compilation main performs, in order; `completed` is false when it panicked. */
  function BuildRun(env: Env, units: TemplateDir, man: TemplateDir): Run
  {
    var data0 := RenderDataOf(env);
    var schedules := RequiredSchedules(env);
    var data := DataAfterSchedules(data0, schedules);
    var u := CompileTemplatesRun(UnitsDir, units, data);
    if !u.completed then Run(ScheduleCompiles(data0, schedules) + u.compiles, false)
    else
      var m := CompileTemplatesRun(ManDir, man, data);
      Run(ScheduleCompiles(data0, schedules) + u.compiles + m.compiles, m.completed)
  }

  /** main: render data, the per-schedule units, then the generic unit and man page templates. */
  method BuildMain(env: Env, units: TemplateDir, man: TemplateDir) returns (out: seq<Compile>, completed: bool)
    ensures Run(out, completed) == BuildRun(env, units, man)
  {
    var data := BuildRenderData(env);
    var schedules := RequiredSchedules(env);
    var scheduled: seq<Compile>;
    data, scheduled := RenderSchedules(data, schedules);
    var u, m: seq<Compile>;
    u, completed := CompileTemplates(UnitsDir, units, data);
    out := scheduled + u;
    if completed {
      m, completed := CompileTemplates(ManDir, man, data);
      out := out + m;
    }
  }
}
