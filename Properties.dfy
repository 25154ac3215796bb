/** What the goal promises as a whole: configuration errors stop it before
    anything happens, merge mode compiles once and writes one file, per-file
    mode compiles each source alone into its own destination and stops at
    the first failure, leaving earlier outputs in place. */
module Properties {
  import opened Results
  import opened Paths
  import opened Options
  import opened Diagnostics
  import opened Mojo

  /** How the compiler's result for one per-file unit passes the gate. */
  function UnitVerdict(c: Config, p: Platform, s: Settings, externs: seq<SourceFile>, name: string): Verdict
  {
    Gate(c.stopOnWarnings, c.stopOnErrors, p.compile(externs, UnitSources(c, name), s))
  }

  /** The unit for `name` passes the gate and its output can be written. */
  predicate UnitWritten(c: Config, p: Platform, s: Settings, externs: seq<SourceFile>, name: string)
    requires |name| >= 3
  {
    UnitVerdict(c, p, s, externs, name).outcome.Success? && SourceToDest(c.outputDirectory, name) !in p.writeErrors
  }

  /** The message the goal fails with when the unit for `name` fails. */
  function UnitFailure(c: Config, p: Platform, s: Settings, externs: seq<SourceFile>, name: string): string
    requires |name| >= 3 && !UnitWritten(c, p, s, externs, name)
  {
    var v := UnitVerdict(c, p, s, externs, name);
    if v.outcome.Failure? then v.outcome.message else p.writeErrors[SourceToDest(c.outputDirectory, name)]
  }

  /** The text the unit for `name` writes when it succeeds. */
  function UnitText(c: Config, p: Platform, s: Settings, externs: seq<SourceFile>, name: string): string
    requires |name| >= 3 && UnitWritten(c, p, s, externs, name)
  {
    UnitVerdict(c, p, s, externs, name).outcome.value
  }

  /** The compiler invocations of the per-file units for `names`, in order. */
  function UnitJobs(c: Config, s: Settings, externs: seq<SourceFile>, names: seq<string>): (r: seq<Job>)
    ensures |r| == |names|
  {
    seq(|names|, k requires 0 <= k < |names| => Job(externs, UnitSources(c, names[k]), s))
  }

  /** The first unit's call comes before the rest's. */
  lemma UnitJobsCons(c: Config, s: Settings, externs: seq<SourceFile>, names: seq<string>)
    requires names != []
    ensures UnitJobs(c, s, externs, names) ==
            [Job(externs, UnitSources(c, names[0]), s)] + UnitJobs(c, s, externs, names[1..])
  {
  }

  /** One call and then a batch of calls is the batch after that call. */
  lemma CallThenRest(jobs: seq<Job>, job: Job, rest: seq<Job>)
    ensures jobs + ([job] + rest) == (jobs + [job]) + rest
  {
  }

  /** Every unit of `names` passes the gate and can be written. */
  predicate AllWritten(c: Config, p: Platform, s: Settings, externs: seq<SourceFile>, names: seq<string>)
  {
    AllJs(names) && forall k :: 0 <= k < |names| ==> UnitWritten(c, p, s, externs, names[k])
  }

  /** The files the units of `names` write: each destination with its
      unit's text, a later unit's write replacing an earlier one's. */
  function Outputs(c: Config, p: Platform, s: Settings, externs: seq<SourceFile>, names: seq<string>): map<string, string>
    requires AllWritten(c, p, s, externs, names)
  {
    if names == [] then map[]
    else map[SourceToDest(c.outputDirectory, names[0]) := UnitText(c, p, s, externs, names[0])] +
         Outputs(c, p, s, externs, names[1..])
  }

  /** The world after one unit that succeeded. */
  function AfterUnit(c: Config, p: Platform, s: Settings, externs: seq<SourceFile>, name: string, w: World): World
    requires |name| >= 3 && UnitWritten(c, p, s, externs, name)
  {
    World(w.log + UnitVerdict(c, p, s, externs, name).logged,
          w.files[SourceToDest(c.outputDirectory, name) := UnitText(c, p, s, externs, name)],
          w.jobs + [Job(externs, UnitSources(c, name), s)])
  }

  /** One unit of per-file mode: on success the run goes on from the next
      source; on failure it ends with the unit's message, after its compiler
      call, with the files as they were. */
  lemma PerFileStep(c: Config, p: Platform, s: Settings, externs: seq<SourceFile>,
                    sources: seq<string>, i: nat, w: World)
    requires AllJs(sources) && i < |sources|
    ensures UnitWritten(c, p, s, externs, sources[i]) ==>
      PerFileRun(c, p, s, externs, sources, i, w) ==
      PerFileRun(c, p, s, externs, sources, i + 1, AfterUnit(c, p, s, externs, sources[i], w))
    ensures !UnitWritten(c, p, s, externs, sources[i]) ==>
      var r := PerFileRun(c, p, s, externs, sources, i, w);
      && r.outcome == Failed(UnitFailure(c, p, s, externs, sources[i]))
      && r.world.jobs == w.jobs + [Job(externs, UnitSources(c, sources[i]), s)]
      && r.world.files == w.files
  {
  }

  /** Writing one file and then a batch is writing the batch over the file. */
  lemma WriteThenMerge(m: map<string, string>, d: string, t: string, rest: map<string, string>)
    ensures m[d := t] + rest == m + (map[d := t] + rest)
  {
  }

  /** A file no unit of `names` has as its destination is not among their outputs. */
  lemma {:induction false} OutputsOnlyDests(c: Config, p: Platform, s: Settings, externs: seq<SourceFile>,
                                            names: seq<string>, q: string)
    requires AllWritten(c, p, s, externs, names)
    requires forall k :: 0 <= k < |names| ==> SourceToDest(c.outputDirectory, names[k]) != q
    ensures q !in Outputs(c, p, s, externs, names)
  {
    if names != [] {
      OutputsOnlyDests(c, p, s, externs, names[1..], q);
    }
  }

  /** For distinct sources, each destination holds its own unit's text. */
  lemma {:induction false} OutputsAt(c: Config, p: Platform, s: Settings, externs: seq<SourceFile>,
                                     names: seq<string>, k: nat)
    requires AllWritten(c, p, s, externs, names) && Distinct(names) && k < |names|
    ensures SourceToDest(c.outputDirectory, names[k]) in Outputs(c, p, s, externs, names)
    ensures Outputs(c, p, s, externs, names)[SourceToDest(c.outputDirectory, names[k])] ==
            UnitText(c, p, s, externs, names[k])
  {
    var rest := names[1..];
    if k == 0 {
      var d := SourceToDest(c.outputDirectory, names[0]);
      forall j | 0 <= j < |rest|
        ensures SourceToDest(c.outputDirectory, rest[j]) != d
      {
        SourceToDestInjective(c.outputDirectory, names[0], rest[j]);
      }
      OutputsOnlyDests(c, p, s, externs, rest, d);
    } else {
      OutputsAt(c, p, s, externs, rest, k - 1);
    }
  }

  /** Invalid parameters end the goal before anything is logged, compiled or
      written; the compilation level is checked first, then the warning
      level, the formatting and the logging level. */
  lemma InvalidParametersStopFirst(c: Config, p: Platform, sources: seq<string>, w: World)
    requires AllJs(sources)
    requires ResolveSettings(c).Failure? || !p.levelParses(c.loggingLevel)
    ensures RunGoal(c, p, sources, w) ==
      Step(w, Failed(if CompilationLevelOf(c.compilationLevel).None? then CompilationLevelInvalid
                     else if WarningLevelOf(c.warningLevel).None? then WarningLevelInvalid
                     else if ResolveFormatting(c.formatting).Failure? then FormattingInvalid
                     else LoggingLevelInvalid))
  {
  }

  /** A failure to fetch the default externs ends the goal before any
      listing, compilation or write. */
  lemma DefaultExternsFailureStops(c: Config, p: Platform, sources: seq<string>, w: World)
    requires AllJs(sources)
    requires ResolveSettings(c).Success? && p.levelParses(c.loggingLevel)
    requires c.addDefaultExterns && p.defaultExterns.None?
    ensures RunGoal(c, p, sources, w) == Step(w, Failed(DefaultExternsError))
  {
  }

  /** Merge mode makes exactly one compiler call, over every source in
      scanner order, and writes its text to the output file and nowhere else. */
  lemma MergeCompilesOnce(c: Config, p: Platform, s: Settings, externs: seq<SourceFile>,
                          sources: seq<string>, w: World)
    ensures var r := MergeRun(c, p, s, externs, sources, w);
      var v := Gate(c.stopOnWarnings, c.stopOnErrors, p.compile(externs, FromNames(c.sourceDirectory, sources), s));
      && r.world.jobs == w.jobs + [Job(externs, FromNames(c.sourceDirectory, sources), s)]
      && r.world.log == w.log + v.logged
      && (r.outcome.Ok? <==> v.outcome.Success? && c.outputFile !in p.writeErrors)
      && r.world.files == (if r.outcome.Ok? then w.files[c.outputFile := v.outcome.value] else w.files)
  {
  }

  /** Per-file mode succeeds exactly when every unit passes the gate and is written. */
  lemma {:induction false} PerFileSucceedsIff(c: Config, p: Platform, s: Settings, externs: seq<SourceFile>,
                                              sources: seq<string>, i: nat, w: World)
    requires AllJs(sources) && i <= |sources|
    ensures PerFileRun(c, p, s, externs, sources, i, w).outcome.Ok? <==>
      forall k :: i <= k < |sources| ==> UnitWritten(c, p, s, externs, sources[k])
    decreases |sources| - i
  {
    if i < |sources| && UnitWritten(c, p, s, externs, sources[i]) {
      var compiled := CompileUnit(c, p, s, externs, UnitSources(c, sources[i]), w);
      var written := WriteFile(p, SourceToDest(c.outputDirectory, sources[i]),
                               compiled.outcome.value, compiled.world);
      PerFileSucceedsIff(c, p, s, externs, sources, i + 1, written.world);
    }
  }

  /** When every unit from the i-th on succeeds, per-file mode succeeds and
      the files afterwards are those before with the units' outputs written
      over them, and no other change. */
  lemma {:induction false} PerFileWritesEveryUnit(c: Config, p: Platform, s: Settings, externs: seq<SourceFile>,
                                                  sources: seq<string>, i: nat, w: World)
    requires i <= |sources| && AllJs(sources) && AllWritten(c, p, s, externs, sources[i..])
    ensures var r := PerFileRun(c, p, s, externs, sources, i, w);
      && r.outcome == Ok
      && r.world.files == w.files + Outputs(c, p, s, externs, sources[i..])
    decreases |sources| - i
  {
    if i < |sources| {
      var name := sources[i];
      assert sources[i..][0] == name && sources[i..][1..] == sources[i + 1..];
      assert UnitWritten(c, p, s, externs, name);
      PerFileStep(c, p, s, externs, sources, i, w);
      var w' := AfterUnit(c, p, s, externs, name, w);
      PerFileWritesEveryUnit(c, p, s, externs, sources, i + 1, w');
      var d := SourceToDest(c.outputDirectory, name);
      var t := UnitText(c, p, s, externs, name);
      var rest := Outputs(c, p, s, externs, sources[i + 1..]);
      assert Outputs(c, p, s, externs, sources[i..]) == map[d := t] + rest;
      WriteThenMerge(w.files, d, t, rest);
    } else {
      assert sources[i..] == [];
    }
  }

  /** When every unit from the i-th on succeeds, per-file mode compiles each
      source alone, in order, with the same externs and options. */
  lemma {:induction false} PerFileCompilesEachAlone(c: Config, p: Platform, s: Settings, externs: seq<SourceFile>,
                                                    sources: seq<string>, i: nat, w: World)
    requires i <= |sources| && AllJs(sources) && AllWritten(c, p, s, externs, sources[i..])
    ensures PerFileRun(c, p, s, externs, sources, i, w).world.jobs == w.jobs + UnitJobs(c, s, externs, sources[i..])
    decreases |sources| - i
  {
    if i < |sources| {
      var name := sources[i];
      assert sources[i..][0] == name && sources[i..][1..] == sources[i + 1..];
      assert UnitWritten(c, p, s, externs, name);
      PerFileStep(c, p, s, externs, sources, i, w);
      var w' := AfterUnit(c, p, s, externs, name, w);
      PerFileCompilesEachAlone(c, p, s, externs, sources, i + 1, w');
      var job := Job(externs, UnitSources(c, name), s);
      assert w'.jobs == w.jobs + [job];
      UnitJobsCons(c, s, externs, sources[i..]);
      CallThenRest(w.jobs, job, UnitJobs(c, s, externs, sources[i + 1..]));
    } else {
      assert sources[i..] == [];
    }
  }

  /** When the k-th unit is the first to fail, per-file mode fails with its
      message; the outputs of the units before it stay written and nothing
      else changes. */
  lemma {:induction false} PerFileStopsAtFirstFailure(c: Config, p: Platform, s: Settings, externs: seq<SourceFile>,
                                                      sources: seq<string>, i: nat, k: nat, w: World)
    requires i <= k < |sources| && AllJs(sources) && AllWritten(c, p, s, externs, sources[i..k])
    requires !UnitWritten(c, p, s, externs, sources[k])
    ensures var r := PerFileRun(c, p, s, externs, sources, i, w);
      && r.outcome == Failed(UnitFailure(c, p, s, externs, sources[k]))
      && r.world.files == w.files + Outputs(c, p, s, externs, sources[i..k])
    decreases k - i
  {
    PerFileStep(c, p, s, externs, sources, i, w);
    if i < k {
      var name := sources[i];
      assert sources[i..k][0] == name && sources[i..k][1..] == sources[i + 1..k];
      assert UnitWritten(c, p, s, externs, name);
      var w' := AfterUnit(c, p, s, externs, name, w);
      PerFileStopsAtFirstFailure(c, p, s, externs, sources, i + 1, k, w');
      var d := SourceToDest(c.outputDirectory, name);
      var t := UnitText(c, p, s, externs, name);
      var rest := Outputs(c, p, s, externs, sources[i + 1..k]);
      assert Outputs(c, p, s, externs, sources[i..k]) == map[d := t] + rest;
      WriteThenMerge(w.files, d, t, rest);
    } else {
      assert sources[i..k] == [];
    }
  }

  /** When the k-th unit is the first to fail, the compiler is called for
      units i to k, each alone and in order, and for no unit after it. */
  lemma {:induction false} PerFileCompilesUpToFailure(c: Config, p: Platform, s: Settings, externs: seq<SourceFile>,
                                                      sources: seq<string>, i: nat, k: nat, w: World)
    requires i <= k < |sources| && AllJs(sources) && AllWritten(c, p, s, externs, sources[i..k])
    requires !UnitWritten(c, p, s, externs, sources[k])
    ensures PerFileRun(c, p, s, externs, sources, i, w).world.jobs == w.jobs + UnitJobs(c, s, externs, sources[i..k + 1])
    decreases k - i
  {
    var name := sources[i];
    PerFileStep(c, p, s, externs, sources, i, w);
    assert sources[i..k + 1][0] == name && sources[i..k + 1][1..] == sources[i + 1..k + 1];
    UnitJobsCons(c, s, externs, sources[i..k + 1]);
    if i < k {
      assert sources[i..k][0] == name && sources[i..k][1..] == sources[i + 1..k];
      assert UnitWritten(c, p, s, externs, name);
      var w' := AfterUnit(c, p, s, externs, name, w);
      PerFileCompilesUpToFailure(c, p, s, externs, sources, i + 1, k, w');
      var job := Job(externs, UnitSources(c, name), s);
      assert w'.jobs == w.jobs + [job];
      CallThenRest(w.jobs, job, UnitJobs(c, s, externs, sources[i + 1..k + 1]));
    } else {
      assert sources[i + 1..k + 1] == [];
    }
  }

  /** With distinct sources that all succeed, each destination holds the
      text of its own unit: no two units write the same file. */
  lemma PerFileEachDestHoldsItsText(c: Config, p: Platform, s: Settings, externs: seq<SourceFile>,
                                    sources: seq<string>, w: World, k: nat)
    requires AllWritten(c, p, s, externs, sources) && Distinct(sources) && k < |sources|
    ensures var files := PerFileRun(c, p, s, externs, sources, 0, w).world.files;
      var d := SourceToDest(c.outputDirectory, sources[k]);
      d in files && files[d] == UnitText(c, p, s, externs, sources[k])
  {
    assert sources[0..] == sources;
    PerFileWritesEveryUnit(c, p, s, externs, sources, 0, w);
    OutputsAt(c, p, s, externs, sources, k);
  }

  /** A file that is no unit's destination is left as it was. */
  lemma PerFileTouchesOnlyDests(c: Config, p: Platform, s: Settings, externs: seq<SourceFile>,
                                sources: seq<string>, w: World, q: string)
    requires AllWritten(c, p, s, externs, sources)
    requires forall k :: 0 <= k < |sources| ==> SourceToDest(c.outputDirectory, sources[k]) != q
    ensures var files := PerFileRun(c, p, s, externs, sources, 0, w).world.files;
      (q in files <==> q in w.files) && (q in w.files ==> files[q] == w.files[q])
  {
    assert sources[0..] == sources;
    PerFileWritesEveryUnit(c, p, s, externs, sources, 0, w);
    OutputsOnlyDests(c, p, s, externs, sources, q);
  }

  /** The goal succeeds exactly when its parameters are valid, the externs
      resolve, and then either the merged compilation passes the gate and is
      written, or in per-file mode every unit does. */
  lemma GoalSucceedsIff(c: Config, p: Platform, sources: seq<string>, w: World)
    requires AllJs(sources)
    ensures RunGoal(c, p, sources, w).outcome.Ok? <==>
      && ResolveSettings(c).Success? && p.levelParses(c.loggingLevel) && ResolveExterns(c, p).Success?
      && var s := ResolveSettings(c).value;
         var externs := ResolveExterns(c, p).value;
         if c.merge then
           && Gate(c.stopOnWarnings, c.stopOnErrors, p.compile(externs, FromNames(c.sourceDirectory, sources), s)).outcome.Success?
           && c.outputFile !in p.writeErrors
         else forall k :: 0 <= k < |sources| ==> UnitWritten(c, p, s, externs, sources[k])
  {
    if ResolveSettings(c).Success? && p.levelParses(c.loggingLevel) && ResolveExterns(c, p).Success? {
      var s := ResolveSettings(c).value;
      var externs := ResolveExterns(c, p).value;
      var listed := w.(log := w.log + Listing(c.logExternFiles, ExternFilesHeader, OriginalPaths(externs))
                                    + Listing(c.logSourceFiles, SourceFilesHeader, sources));
      if c.merge {
        MergeCompilesOnce(c, p, s, externs, sources, listed);
      } else {
        PerFileSucceedsIff(c, p, s, externs, sources, 0, listed);
      }
    }
  }
}
