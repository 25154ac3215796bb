/** The compile goal: it resolves its parameters into compiler options,
    gathers the externs, compiles either all sources into one output file or
    each source into its own minified file, and stops at the first failure.

    The compiler library and the platform are the parameter `Platform`; the
    source files the directory scanner includes are a parameter of Execute.
    The log the goal writes through getLog(), the files on disk and the
    compiler calls made so far are the state of a ClosureCompilerMojo. */
module Mojo {
  import opened Results
  import opened Paths
  import opened FileTree
  import opened Options
  import opened Diagnostics

  /** A compiler input, known by its original path. */
  datatype SourceFile = SourceFile(originalPath: string)

  /** What the goal calls but does not define. */
  datatype Platform = Platform(
    /** new Compiler().compile(externs, sources, options), with toSource() afterwards. */
    compile: (seq<SourceFile>, seq<SourceFile>, Settings) -> CompileResult,
    /** CommandLineRunner.getDefaultExterns(); None when it throws an IOException. */
    defaultExterns: Option<seq<SourceFile>>,
    /** Whether java.util.logging.Level.parse accepts the string. */
    levelParses: string -> bool,
    /** The destinations whose creation or write throws an IOException, with its message. */
    writeErrors: map<string, string>)

  /** The goal's parameters as the build supplies them. A Java null is None;
      the extern directory is the tree rooted at the configured path. */
  datatype Config = Config(
    loggingLevel: string,
    compilationLevel: string,
    warningLevel: string,
    formatting: Option<string>,
    entryPoints: Option<seq<string>>,
    generateExports: bool,
    externsSourceDirectory: Option<Entry>,
    sourceDirectory: string,
    outputFile: string,
    merge: bool,
    outputDirectory: string,
    logSourceFiles: bool,
    logExternFiles: bool,
    addDefaultExterns: bool,
    stopOnWarnings: bool,
    stopOnErrors: bool)

  /** One compiler invocation: its externs, its sources and its options. */
  datatype Job = Job(externs: seq<SourceFile>, sources: seq<SourceFile>, settings: Settings)

  /** The log so far, the files on disk by path, and the compiler invocations so far. */
  datatype World = World(log: seq<LogEntry>, files: map<string, string>, jobs: seq<Job>)

  /** A world after a step, and how the step ended. */
  datatype Step<T> = Step(world: World, outcome: T)

  const LoggingLevelInvalid := "Logging level invalid (values: [ALL, CONFIG, FINE, FINER, FINEST, INFO, OFF, SEVERE, WARNING])"
  const DefaultExternsError := "Default externs adding error"
  const ExternFilesHeader := "Extern files:"
  const SourceFilesHeader := "Source files:"

  /** The directory scanner's include pattern admits only names ending in ".js". */
  predicate AllJs(names: seq<string>)
  {
    forall k :: 0 <= k < |names| ==> EndsWith(names[k], ".js")
  }

  /** The scanner reports every included file once. */
  predicate Distinct(names: seq<string>)
  {
    forall j, k :: 0 <= j < k < |names| ==> names[j] != names[k]
  }

  /** filesToSourceFiles: the source files report back exactly the paths they were made from. */
  function FromFiles(paths: seq<string>): (r: seq<SourceFile>)
    ensures OriginalPaths(r) == paths
  {
    seq(|paths|, k requires 0 <= k < |paths| => SourceFile(paths[k]))
  }

  /** filenamesToSourceFiles: each relative name under the source directory. */
  function FromNames(directory: string, names: seq<string>): (r: seq<SourceFile>)
    ensures |r| == |names| && forall k :: 0 <= k < |r| ==> r[k] == SourceFile(Join(directory, names[k]))
  {
    seq(|names|, k requires 0 <= k < |names| => SourceFile(Join(directory, names[k])))
  }

  /** Distinct scanned names give the merged compilation distinct inputs:
      no source is compiled twice. */
  lemma FromNamesDistinct(directory: string, names: seq<string>)
    requires Distinct(names)
    ensures Distinct(OriginalPaths(FromNames(directory, names)))
  {
    var paths := OriginalPaths(FromNames(directory, names));
    forall j, k | 0 <= j < k < |paths|
      ensures paths[j] != paths[k]
    {
      if paths[j] == paths[k] {
        JoinInjective(directory, names[j], names[k]);
      }
    }
  }

  function OriginalPaths(files: seq<SourceFile>): (r: seq<string>)
    ensures |r| == |files| && forall k :: 0 <= k < |r| ==> r[k] == files[k].originalPath
  {
    seq(|files|, k requires 0 <= k < |files| => files[k].originalPath)
  }

  /** A header line and one line per path, at info level, when `enabled`. */
  function Listing(enabled: bool, header: string, paths: seq<string>): seq<LogEntry>
  {
    if enabled then [LogEntry(Info, header)] + Entries(Info, paths) else []
  }

  /** What execute makes of the parameters before anything else: the
      compilation level, the warning level, the entry points, the exports flag
      and the formatting, the first invalid value ending the goal. */
  function ResolveSettings(c: Config): (r: Result<Settings>)
    ensures r.Success? <==>
      CompilationLevelOf(c.compilationLevel).Some? && WarningLevelOf(c.warningLevel).Some? &&
      ResolveFormatting(c.formatting).Success?
    ensures r.Failure? ==>
      r.message == (if CompilationLevelOf(c.compilationLevel).None? then CompilationLevelInvalid
                    else if WarningLevelOf(c.warningLevel).None? then WarningLevelInvalid
                    else FormattingInvalid)
    ensures r.Success? ==>
      && r.value.compilationLevel.Some? && r.value.compilationLevel.value.Name() == c.compilationLevel
      && r.value.warningLevel.Some? && r.value.warningLevel.value.Name() == c.warningLevel
      && r.value.closureEntryPoints == c.entryPoints
      && r.value.generateExports == c.generateExports
      && (r.value.prettyPrint <==> c.formatting == Some("PRETTY_PRINT"))
      && (r.value.printInputDelimiter <==> c.formatting == Some("PRINT_INPUT_DELIMITER"))
  {
    var level := CompilationLevelOf(c.compilationLevel);
    if level.None? then Failure(CompilationLevelInvalid)
    else
      var warning := WarningLevelOf(c.warningLevel);
      if warning.None? then Failure(WarningLevelInvalid)
      else
        var formatting := ResolveFormatting(c.formatting);
        if formatting.Failure? then Failure(formatting.message)
        else
          Success(Settings(level, warning, c.entryPoints, c.generateExports,
                           formatting.value == Some(PrettyPrint),
                           formatting.value == Some(PrintInputDelimiter)))
  }

  /** The walk of the extern directory; a null directory has none. */
  function ExternPaths(c: Config): seq<string>
  {
    if c.externsSourceDirectory.Some? then Walk(c.externsSourceDirectory.value) else []
  }

  /** parseExterns: the default externs when they are asked for, then the
      extern files sorted by path. */
  function ResolveExterns(c: Config, p: Platform): (r: Result<seq<SourceFile>>)
    ensures r.Failure? <==> c.addDefaultExterns && p.defaultExterns.None?
    ensures r.Failure? ==> r.message == DefaultExternsError
    ensures r.Success? ==>
      var defaults := if c.addDefaultExterns then p.defaultExterns.value else [];
      && |defaults| <= |r.value|
      && r.value[..|defaults|] == defaults
      && Sorted(OriginalPaths(r.value[|defaults|..]))
      && multiset(OriginalPaths(r.value[|defaults|..])) == multiset(ExternPaths(c))
  {
    if c.addDefaultExterns && p.defaultExterns.None? then Failure(DefaultExternsError)
    else
      var defaults := if c.addDefaultExterns then p.defaultExterns.value else [];
      var user := SortPaths(ExternPaths(c));
      var externs := defaults + FromFiles(user);
      assert externs[|defaults|..] == FromFiles(user);
      Success(externs)
  }

  /** One compiler invocation and its gate. */
  function CompileUnit(c: Config, p: Platform, s: Settings, externs: seq<SourceFile>,
                       sources: seq<SourceFile>, w: World): Step<Result<string>>
  {
    var v := Gate(c.stopOnWarnings, c.stopOnErrors, p.compile(externs, sources, s));
    Step(w.(log := w.log + v.logged, jobs := w.jobs + [Job(externs, sources, s)]), v.outcome)
  }

  /** createParentDirs, touch and write: the text replaces the file's content. */
  function WriteFile(p: Platform, path: string, text: string, w: World): Step<Status>
  {
    if path in p.writeErrors then Step(w, Failed(p.writeErrors[path]))
    else Step(w.(files := w.files[path := text]), Ok)
  }

  /** Merge mode: one compilation of every source, written to the output file. */
  function MergeRun(c: Config, p: Platform, s: Settings, externs: seq<SourceFile>,
                    sources: seq<string>, w: World): Step<Status>
  {
    var compiled := CompileUnit(c, p, s, externs, FromNames(c.sourceDirectory, sources), w);
    if compiled.outcome.Failure? then Step(compiled.world, Failed(compiled.outcome.message))
    else WriteFile(p, c.outputFile, compiled.outcome.value, compiled.world)
  }

  /** The sources of the per-file unit for one relative name. */
  function UnitSources(c: Config, name: string): seq<SourceFile>
  {
    [SourceFile(Join(c.sourceDirectory, name))]
  }

  /** Per-file mode from the i-th source on: compile it alone, write it to its
      destination, go on; the first failure ends the goal. */
  function PerFileRun(c: Config, p: Platform, s: Settings, externs: seq<SourceFile>,
                      sources: seq<string>, i: nat, w: World): Step<Status>
    requires AllJs(sources) && i <= |sources|
    decreases |sources| - i
  {
    if i == |sources| then Step(w, Ok)
    else
      var compiled := CompileUnit(c, p, s, externs, UnitSources(c, sources[i]), w);
      if compiled.outcome.Failure? then Step(compiled.world, Failed(compiled.outcome.message))
      else
        var written := WriteFile(p, SourceToDest(c.outputDirectory, sources[i]),
                                 compiled.outcome.value, compiled.world);
        if written.outcome.Failed? then written
        else PerFileRun(c, p, s, externs, sources, i + 1, written.world)
  }

  /** The compile-and-write part of execute, in the configured mode. */
  function CompileSources(c: Config, p: Platform, s: Settings, externs: seq<SourceFile>,
                          sources: seq<string>, w: World): Step<Status>
    requires AllJs(sources)
  {
    if c.merge then MergeRun(c, p, s, externs, sources, w)
    else PerFileRun(c, p, s, externs, sources, 0, w)
  }

  /** The whole of execute, from the world `w` before it. */
  function RunGoal(c: Config, p: Platform, sources: seq<string>, w: World): Step<Status>
    requires AllJs(sources)
  {
    var settings := ResolveSettings(c);
    if settings.Failure? then Step(w, Failed(settings.message))
    else if !p.levelParses(c.loggingLevel) then Step(w, Failed(LoggingLevelInvalid))
    else
      var externs := ResolveExterns(c, p);
      if externs.Failure? then Step(w, Failed(externs.message))
      else
        var listed := w.(log := w.log + Listing(c.logExternFiles, ExternFilesHeader, OriginalPaths(externs.value))
                                      + Listing(c.logSourceFiles, SourceFilesHeader, sources));
        CompileSources(c, p, settings.value, externs.value, sources, listed)
  }

  class ClosureCompilerMojo {
    const config: Config
    /** The entries the goal has logged. */
    var log: seq<LogEntry>
    /** The files on disk, by path. */
    var files: map<string, string>
    /** The compiler invocations so far. */
    ghost var jobs: seq<Job>

    constructor (config: Config, files: map<string, string>)
      ensures this.config == config && State() == World([], files, [])
    {
      this.config := config;
      log := [];
      this.files := files;
      jobs := [];
    }

    ghost function State(): World
      reads this
    {
      World(log, files, jobs)
    }

    /** execute: the goal as a whole, proved to do what RunGoal says. */
    method Execute(platform: Platform, scanned: seq<string>) returns (status: Status)
      requires AllJs(scanned)
      modifies this
      ensures var r := RunGoal(config, platform, scanned, old(State()));
        State() == r.world && status == r.outcome
    {
      var options := new CompilerOptions();
      status := Configure(platform, options);
      if status.Failed? { return; }
      var externs := ParseExterns(platform);
      if externs.Failure? {
        return Failed(externs.message);
      }
      var sources := ParseSources(scanned);
      ghost var listed := State();
      assert RunGoal(config, platform, scanned, old(State())) ==
             CompileSources(config, platform, options.Snapshot(), externs.value, sources, listed);
      status := CompileAndWrite(platform, options, externs.value, sources);
    }

    /** The try block of execute: merge mode compiles everything once and
        writes the output file; per-file mode goes through CompileEach. */
    method CompileAndWrite(platform: Platform, options: CompilerOptions, externs: seq<SourceFile>,
                           sources: seq<string>) returns (status: Status)
      requires AllJs(sources)
      modifies this`log, this`jobs, this`files
      ensures var r := CompileSources(config, platform, options.Snapshot(), externs, sources, old(State()));
        State() == r.world && status == r.outcome
    {
      if config.merge {
        var text := Compile(platform, options, externs, FromNames(config.sourceDirectory, sources));
        if text.Failure? {
          return Failed(text.message);
        }
        status := Write(platform, config.outputFile, text.value);
      } else {
        status := CompileEach(platform, options, externs, sources);
      }
    }

    /** The per-file branch of execute: each source compiled alone and
        written to its destination, until the first failure. */
    method CompileEach(platform: Platform, options: CompilerOptions, externs: seq<SourceFile>,
                       sources: seq<string>) returns (status: Status)
      requires AllJs(sources)
      modifies this`log, this`jobs, this`files
      ensures var r := PerFileRun(config, platform, options.Snapshot(), externs, sources, 0, old(State()));
        State() == r.world && status == r.outcome
    {
      var i := 0;
      while i < |sources|
        invariant 0 <= i <= |sources|
        invariant PerFileRun(config, platform, options.Snapshot(), externs, sources, i, State()) ==
                  PerFileRun(config, platform, options.Snapshot(), externs, sources, 0, old(State()))
      {
        var curSourceFile := sources[i];
        var text := Compile(platform, options, externs, UnitSources(config, curSourceFile));
        if text.Failure? {
          return Failed(text.message);
        }
        var curOutputFile := SourceToDest(config.outputDirectory, curSourceFile);
        status := Write(platform, curOutputFile, text.value);
        if status.Failed? {
          return;
        }
        i := i + 1;
      }
      status := Ok;
    }

    /** The first lines of execute: every parameter resolved into the fresh
        options, in order, the first invalid one ending the goal. */
    method Configure(platform: Platform, options: CompilerOptions) returns (status: Status)
      requires options.Snapshot() == DefaultSettings
      modifies options
      ensures var settings := ResolveSettings(config);
        && (settings.Failure? ==> status == Failed(settings.message))
        && (settings.Success? && !platform.levelParses(config.loggingLevel) ==> status == Failed(LoggingLevelInvalid))
        && (settings.Success? && platform.levelParses(config.loggingLevel) ==>
              status == Ok && options.Snapshot() == settings.value)
    {
      status := ParseCompilationLevel(options);
      if status.Failed? { return; }
      status := ParseWarningLevel(options);
      if status.Failed? { return; }
      ParseEntryPoints(options);
      options.generateExports := config.generateExports;
      status := ParseFormattingOptions(options);
      if status.Failed? { return; }
      status := ParseLoggingLevel(platform);
    }

    /** parseCompilationLevel: the named preset is applied, or the goal fails
        with the message listing the levels. */
    method ParseCompilationLevel(options: CompilerOptions) returns (status: Status)
      modifies options
      ensures var level := CompilationLevelOf(config.compilationLevel);
        && (level.None? ==> status == Failed(CompilationLevelInvalid) && options.Snapshot() == old(options.Snapshot()))
        && (level.Some? ==> status == Ok && options.Snapshot() == old(options.Snapshot()).(compilationLevel := level))
    {
      var level := CompilationLevelOf(config.compilationLevel);
      if level.None? {
        return Failed(CompilationLevelInvalid);
      }
      options.compilationLevel := level;
      status := Ok;
    }

    /** parseWarningLevel. */
    method ParseWarningLevel(options: CompilerOptions) returns (status: Status)
      modifies options
      ensures var level := WarningLevelOf(config.warningLevel);
        && (level.None? ==> status == Failed(WarningLevelInvalid) && options.Snapshot() == old(options.Snapshot()))
        && (level.Some? ==> status == Ok && options.Snapshot() == old(options.Snapshot()).(warningLevel := level))
    {
      var level := WarningLevelOf(config.warningLevel);
      if level.None? {
        return Failed(WarningLevelInvalid);
      }
      options.warningLevel := level;
      status := Ok;
    }

    /** parseEntryPoints: entry points, when given, are passed on verbatim. */
    method ParseEntryPoints(options: CompilerOptions)
      modifies options
      ensures config.entryPoints.None? ==> options.Snapshot() == old(options.Snapshot())
      ensures config.entryPoints.Some? ==>
        options.Snapshot() == old(options.Snapshot()).(closureEntryPoints := config.entryPoints)
    {
      if config.entryPoints.Some? {
        options.closureEntryPoints := config.entryPoints;
      }
    }

    /** parseFormattingOptions: the sentinel leaves the options alone, a
        formatting name switches on its flag, anything else fails. */
    method ParseFormattingOptions(options: CompilerOptions) returns (status: Status)
      modifies options
      ensures var f := ResolveFormatting(config.formatting);
        && (f.Failure? ==> status == Failed(f.message) && options.Snapshot() == old(options.Snapshot()))
        && (f == Success(None) ==> status == Ok && options.Snapshot() == old(options.Snapshot()))
        && (f == Success(Some(PrettyPrint)) ==>
              status == Ok && options.Snapshot() == old(options.Snapshot()).(prettyPrint := true))
        && (f == Success(Some(PrintInputDelimiter)) ==>
              status == Ok && options.Snapshot() == old(options.Snapshot()).(printInputDelimiter := true))
    {
      if config.formatting.Some? && config.formatting.value != "null" {
        var option := FormattingOptionOf(config.formatting.value);
        if option.None? {
          return Failed(FormattingInvalid);
        }
        option.value.ApplyToOptions(options);
      }
      status := Ok;
    }

    /** parseLoggingLevel: only whether Level.parse accepts the string. */
    method ParseLoggingLevel(platform: Platform) returns (status: Status)
      ensures status == if platform.levelParses(config.loggingLevel) then Ok else Failed(LoggingLevelInvalid)
    {
      if !platform.levelParses(config.loggingLevel) {
        return Failed(LoggingLevelInvalid);
      }
      status := Ok;
    }

    /** parseExterns: builds the list in place, sorts the extern files and
        optionally lists everything; the listing does not change the list. */
    method ParseExterns(platform: Platform) returns (externs: Result<seq<SourceFile>>)
      modifies this`log
      ensures externs == ResolveExterns(config, platform)
      ensures externs.Failure? ==> log == old(log)
      ensures externs.Success? ==>
        log == old(log) + Listing(config.logExternFiles, ExternFilesHeader, OriginalPaths(externs.value))
    {
      var list: seq<SourceFile> := [];
      if config.addDefaultExterns {
        if platform.defaultExterns.None? {
          return Failure(DefaultExternsError);
        }
        list := list + platform.defaultExterns.value;
        assert list == platform.defaultExterns.value;
      }
      var externFiles := ListFiles(config.externsSourceDirectory);
      assert externFiles == ExternPaths(config);
      externFiles := SortPaths(externFiles);
      list := list + FromFiles(externFiles);
      if config.logExternFiles {
        LogListing(ExternFilesHeader, OriginalPaths(list));
      }
      externs := Success(list);
    }

    /** parseSources: the scanner's names, optionally listed. */
    method ParseSources(scanned: seq<string>) returns (sources: seq<string>)
      modifies this`log
      ensures sources == scanned
      ensures log == old(log) + Listing(config.logSourceFiles, SourceFilesHeader, scanned)
    {
      sources := scanned;
      if config.logSourceFiles {
        LogListing(SourceFilesHeader, sources);
      }
    }

    /** The listing loops of parseExterns and parseSources: the header, then
        one info line per path. */
    method LogListing(header: string, paths: seq<string>)
      modifies this`log
      ensures log == old(log) + Listing(true, header, paths)
    {
      log := log + [LogEntry(Info, header)];
      var i := 0;
      while i < |paths|
        invariant 0 <= i <= |paths|
        invariant log == old(log) + [LogEntry(Info, header)] + Entries(Info, paths[..i])
      {
        EntriesStep(Info, paths, i);
        log := log + [LogEntry(Info, paths[i])];
        i := i + 1;
      }
      assert paths[..i] == paths;
      assert Listing(true, header, paths) == [LogEntry(Info, header)] + Entries(Info, paths);
    }

    /** compile: one fresh compiler call, then the gate. */
    method Compile(platform: Platform, options: CompilerOptions, externs: seq<SourceFile>,
                   sources: seq<SourceFile>) returns (text: Result<string>)
      modifies this`log, this`jobs
      ensures var v := Gate(config.stopOnWarnings, config.stopOnErrors,
                            platform.compile(externs, sources, options.Snapshot()));
        log == old(log) + v.logged && text == v.outcome
      ensures jobs == old(jobs) + [Job(externs, sources, options.Snapshot())]
    {
      var settings := options.Snapshot();
      var result := platform.compile(externs, sources, settings);
      jobs := jobs + [Job(externs, sources, settings)];
      ghost var warned := Entries(Warn, result.warnings);
      var status := LogWarnings(result);
      if status.Failed? {
        assert Gate(config.stopOnWarnings, config.stopOnErrors, result) == Verdict(warned, Failure(HasWarnings));
        return Failure(status.message);
      }
      status := LogErrors(result);
      ghost var logged := warned + Entries(Error, result.errors);
      assert log == old(log) + logged;
      if status.Failed? {
        assert Gate(config.stopOnWarnings, config.stopOnErrors, result) == Verdict(logged, Failure(HasErrors));
        return Failure(status.message);
      }
      if !result.success {
        assert Gate(config.stopOnWarnings, config.stopOnErrors, result) == Verdict(logged, Failure(CompilationFailure));
        return Failure(CompilationFailure);
      }
      assert Gate(config.stopOnWarnings, config.stopOnErrors, result) == Verdict(logged, Success(result.source));
      text := Success(result.source);
    }

    /** logWarnings: every warning at warn level, in order; then the warning stop. */
    method LogWarnings(result: CompileResult) returns (status: Status)
      modifies this`log
      ensures log == old(log) + Entries(Warn, result.warnings)
      ensures status == if config.stopOnWarnings && result.warnings != [] then Failed(HasWarnings) else Ok
    {
      var hasWarnings := false;
      var i := 0;
      while i < |result.warnings|
        invariant 0 <= i <= |result.warnings|
        invariant log == old(log) + Entries(Warn, result.warnings[..i])
        invariant hasWarnings <==> i > 0
      {
        EntriesStep(Warn, result.warnings, i);
        log := log + [LogEntry(Warn, result.warnings[i])];
        hasWarnings := true;
        i := i + 1;
      }
      assert result.warnings[..i] == result.warnings;
      if config.stopOnWarnings && hasWarnings {
        return Failed(HasWarnings);
      }
      status := Ok;
    }

    /** logErrors: every error at error level, in order; then the error stop. */
    method LogErrors(result: CompileResult) returns (status: Status)
      modifies this`log
      ensures log == old(log) + Entries(Error, result.errors)
      ensures status == if config.stopOnErrors && result.errors != [] then Failed(HasErrors) else Ok
    {
      var hasErrors := false;
      var i := 0;
      while i < |result.errors|
        invariant 0 <= i <= |result.errors|
        invariant log == old(log) + Entries(Error, result.errors[..i])
        invariant hasErrors <==> i > 0
      {
        EntriesStep(Error, result.errors, i);
        log := log + [LogEntry(Error, result.errors[i])];
        hasErrors := true;
        i := i + 1;
      }
      assert result.errors[..i] == result.errors;
      if config.stopOnErrors && hasErrors {
        return Failed(HasErrors);
      }
      status := Ok;
    }

    /** createParentDirs, touch, then write the text, replacing the file's content. */
    method Write(platform: Platform, path: string, text: string) returns (status: Status)
      modifies this`files
      ensures path in platform.writeErrors ==> status == Failed(platform.writeErrors[path]) && files == old(files)
      ensures path !in platform.writeErrors ==> status == Ok && files == old(files)[path := text]
    {
      if path in platform.writeErrors {
        return Failed(platform.writeErrors[path]);
      }
      files := files[path := text];
      status := Ok;
    }
  }
}
