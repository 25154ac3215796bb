# closure-compiler-maven-plugin: the compile goal, in Dafny

This project models the `compile` goal of the Closure Compiler Maven plugin
(`ClosureCompilerMojo`), the build step that hands JavaScript sources to the
Closure compiler. The goal does the following:

- It resolves its parameters into a fresh `CompilerOptions`: the compilation
  level, the warning level, the entry points, the exports flag and the
  formatting option. It then checks the logging level, which goes to the
  compiler's process-wide logger rather than into the options. The first
  invalid value ends the goal.
- It gathers the externs: the compiler's default externs when asked for,
  followed by every `.js` file under the externs directory, sorted by path.
- It takes the sources the directory scanner found.
- It compiles them in one of two modes:
  - **merge**: one compilation of every source, written to the output file;
  - **per-file**: each source compiled alone into
    `<outputDirectory>/<name without .js>.min.js`.

  The first failure ends the goal, and files already written stay written.
- After every compilation it logs each warning. With stopOnWarnings and at
  least one warning it fails at once, and no error is logged. Otherwise it
  logs each error, fails with stopOnErrors and at least one error, and then
  fails if the compiler reported failure.

Modules:

- `Results`: Option, Result and the goal's outcome, `Status`.
- `Paths`: `new File(parent, child)`, `sourceToDest`, and the path order
  `Collections.sort` uses.
- `FileTree`: the recursive `listFiles` walk, over a tree of directory
  entries.
- `Options`:
  - the enumerations resolved by name;
  - `FormattingOption.applyToOptions`;
  - the `CompilerOptions` object, a class with the fields the goal assigns.
- `Diagnostics`:
  - the log entries;
  - `Gate`, the specification of what `compile`, `logWarnings` and
    `logErrors` do once the compiler has returned.
- `Mojo`:
  - the goal's parameters (`Config`);
  - the platform it calls (`Platform`);
  - the specification of the whole goal (`RunGoal`, `MergeRun`,
    `PerFileRun`);
  - the class `ClosureCompilerMojo`. Its fields are the log, the files on
    disk and the compiler calls made so far. Each of its methods is proved to
    follow the specification functions.
- `Properties`: what the goal promises as a whole, proved as lemmas about
  those functions. It covers:
  - configuration errors;
  - merge mode versus per-file mode;
  - the first failure in per-file mode;
  - which files are written, and with what.

Where the code calls what the goal does not define, the model takes a
parameter (`Platform`):

- the compiler, as a function from externs, sources and options to a result
  carrying the text `toSource()` returns;
- the default externs, or their absence when fetching them throws;
- whether `Level.parse` accepts a string;
- the destinations whose write throws, with the exception's message.

The scanned source names are an argument of `Execute`. The file system is a
map from path to content.

Two points of the code's behaviour are easy to misread:

- A compiler failure does not end a unit at once. The warnings are logged
  first and the warning stop is checked. Unless that stop trips, the errors
  are then logged and the error stop is checked. Only then is the success flag
  tested, so the two stop messages take precedence over "Compilation failure"
  (`Diagnostics.GateFailureAlwaysFails`).
- Sources are used in the order the scanner reports them; the goal does not
  sort them. Only the extern files are sorted. The extern walk applies no
  default excludes.

## Model

| member | source | states |
|---|---|---|
| Paths.SourceToDest | src/main/java/com/github/pukkaone/closurecompilermavenplugin/ClosureCompilerMojo.java:171-175 | the destination is `outputDirectory + "/"`, then the source name without its last three characters, then `.min.js`; its length is exactly that |
| Paths.SourceToDestInjective | src/main/java/com/github/pukkaone/closurecompilermavenplugin/ClosureCompilerMojo.java:171-175 | two different source names ending in `.js` get different destinations |
| Paths.JoinInjective | src/main/java/com/github/pukkaone/closurecompilermavenplugin/ClosureCompilerMojo.java:336 | two children of one directory are the same file only when they have the same name |
| Paths.SortPaths | src/main/java/com/github/pukkaone/closurecompilermavenplugin/ClosureCompilerMojo.java:293 | `Collections.sort` of the extern files gives a list sorted by path that is a permutation of its input |
| Paths.Insert | src/main/java/com/github/pukkaone/closurecompilermavenplugin/ClosureCompilerMojo.java:293 | inserting one path into a sorted list keeps it sorted and adds exactly that path |
| Paths.SortedUnique | src/main/java/com/github/pukkaone/closurecompilermavenplugin/ClosureCompilerMojo.java:293 | two sorted permutations of the same paths are equal, so the sorted extern order is fully determined |
| Paths.LessEqTotal | src/main/java/com/github/pukkaone/closurecompilermavenplugin/ClosureCompilerMojo.java:293 | any two paths are comparable under the order the sort uses |
| Paths.LessEqTransitive | src/main/java/com/github/pukkaone/closurecompilermavenplugin/ClosureCompilerMojo.java:293 | the path order is transitive |
| Paths.LessEqAntisymmetric | src/main/java/com/github/pukkaone/closurecompilermavenplugin/ClosureCompilerMojo.java:293 | two paths ordered both ways are equal |
| Paths.LessEqReflexive | src/main/java/com/github/pukkaone/closurecompilermavenplugin/ClosureCompilerMojo.java:293 | every path is ordered before itself |
| FileTree.ListFiles | src/main/java/com/github/pukkaone/closurecompilermavenplugin/ClosureCompilerMojo.java:341-343 | a null directory gives no files; otherwise the result is the walk of the directory |
| FileTree.ListFilesInto | src/main/java/com/github/pukkaone/closurecompilermavenplugin/ClosureCompilerMojo.java:345-361 | the accumulator comes back extended by exactly the walk of the directory, entry by entry, recursing into every entry that is not a regular file |
| FileTree.WalkExact | src/main/java/com/github/pukkaone/closurecompilermavenplugin/ClosureCompilerMojo.java:345-361 | a path is in the walk exactly when some regular file in the tree, below no unlistable entry, has that path and a name ending in `.js` |
| FileTree.WalkAllComplete | src/main/java/com/github/pukkaone/closurecompilermavenplugin/ClosureCompilerMojo.java:349-356 | every `.js` regular file reachable through the listed entries is collected |
| FileTree.WalkAllSound | src/main/java/com/github/pukkaone/closurecompilermavenplugin/ClosureCompilerMojo.java:349-356 | everything collected is a reachable `.js` regular file |
| Options.CompilationLevelOf | src/main/java/com/github/pukkaone/closurecompilermavenplugin/ClosureCompilerMojo.java:225 | `valueOf` finds the level with exactly that name, or reports that no level has it |
| Options.WarningLevelOf | src/main/java/com/github/pukkaone/closurecompilermavenplugin/ClosureCompilerMojo.java:239 | `valueOf` finds the warning level with exactly that name, or reports that none has it |
| Options.FormattingOptionOf | src/main/java/com/github/pukkaone/closurecompilermavenplugin/ClosureCompilerMojo.java:261 | `valueOf` finds the formatting option with exactly that name, or reports that none has it |
| Options.ResolveFormatting | src/main/java/com/github/pukkaone/closurecompilermavenplugin/ClosureCompilerMojo.java:255-268 | null and `"null"` are exactly the inputs that ask for no formatting; another string succeeds exactly when it names an option, and fails with the message listing both names otherwise |
| Options.FormattingOption.ApplyToOptions | src/main/java/com/github/pukkaone/closurecompilermavenplugin/ClosureCompilerMojo.java:367-378 | PRETTY_PRINT sets only `prettyPrint`; PRINT_INPUT_DELIMITER sets only `printInputDelimiter` |
| Options.CompilerOptions.constructor | src/main/java/com/github/pukkaone/closurecompilermavenplugin/ClosureCompilerMojo.java:131 | fresh options have no preset applied and no flag set |
| Diagnostics.Entries | src/main/java/com/github/pukkaone/closurecompilermavenplugin/ClosureCompilerMojo.java:198-199 | one entry per message, at the given level, in order |
| Diagnostics.Gate | src/main/java/com/github/pukkaone/closurecompilermavenplugin/ClosureCompilerMojo.java:183-193 | the unit succeeds exactly when the compiler succeeded and no stop flag tripped; on success the text is `toSource()`; every failure carries one of the three messages; the warnings are always logged first |
| Diagnostics.GateFailureAlwaysFails | src/main/java/com/github/pukkaone/closurecompilermavenplugin/ClosureCompilerMojo.java:186-191 | a compiler failure fails the unit whatever the flags, with the message of the first check that trips |
| Diagnostics.GateStopsOnWarnings | src/main/java/com/github/pukkaone/closurecompilermavenplugin/ClosureCompilerMojo.java:196-206 | with stopOnWarnings and a warning, every warning is logged in order, no error is logged, and the unit fails with "has warnings" |
| Diagnostics.GateStopsOnErrors | src/main/java/com/github/pukkaone/closurecompilermavenplugin/ClosureCompilerMojo.java:208-218 | with stopOnErrors and an error, warnings and then errors are logged and the unit fails with "has errors", even if the compiler succeeded |
| Diagnostics.GateWarningsStrictness | src/main/java/com/github/pukkaone/closurecompilermavenplugin/ClosureCompilerMojo.java:186-193 | a successful compilation with warnings and no errors fails exactly when stopOnWarnings is set, and otherwise yields the text |
| Diagnostics.GateLogsEverything | src/main/java/com/github/pukkaone/closurecompilermavenplugin/ClosureCompilerMojo.java:186-187 | unless the warning stop trips, every warning and then every error is logged |
| Mojo.FromFiles | src/main/java/com/github/pukkaone/closurecompilermavenplugin/ClosureCompilerMojo.java:321-328 | the source files report back, through their original paths, exactly the files they were made from, in order |
| Mojo.FromNamesDistinct | src/main/java/com/github/pukkaone/closurecompilermavenplugin/ClosureCompilerMojo.java:330-339 | distinct scanned names give the merged compilation pairwise distinct source files, so no source is compiled twice |
| Mojo.ResolveSettings | src/main/java/com/github/pukkaone/closurecompilermavenplugin/ClosureCompilerMojo.java:131-137 | the parameters resolve exactly when each enumeration value is valid, and the first invalid one decides the message; on success: the named presets, the entry points verbatim, the exports flag, and `prettyPrint`/`printInputDelimiter` exactly when the formatting names them |
| Mojo.ResolveExterns | src/main/java/com/github/pukkaone/closurecompilermavenplugin/ClosureCompilerMojo.java:282-302 | the externs fail exactly when default externs are wanted and cannot be fetched, with "Default externs adding error"; otherwise they are the defaults (only when asked for), then the walked extern files, sorted and as a permutation of the walk |
| Mojo.ClosureCompilerMojo.constructor | src/main/java/com/github/pukkaone/closurecompilermavenplugin/ClosureCompilerMojo.java:31-127 | a goal starts with its parameters, an empty log, the given files and no compiler call |
| Mojo.ClosureCompilerMojo.Execute | src/main/java/com/github/pukkaone/closurecompilermavenplugin/ClosureCompilerMojo.java:130-169 | the log, the files and the compiler calls afterwards, and the outcome, are those RunGoal gives from the state before |
| Mojo.ClosureCompilerMojo.CompileAndWrite | src/main/java/com/github/pukkaone/closurecompilermavenplugin/ClosureCompilerMojo.java:143-168 | merge mode goes through MergeRun; per-file mode goes through PerFileRun from the first source |
| Mojo.ClosureCompilerMojo.CompileEach | src/main/java/com/github/pukkaone/closurecompilermavenplugin/ClosureCompilerMojo.java:153-164 | the per-file loop ends in the state and outcome PerFileRun gives |
| Mojo.ClosureCompilerMojo.Configure | src/main/java/com/github/pukkaone/closurecompilermavenplugin/ClosureCompilerMojo.java:131-138 | a parameter that does not resolve fails with its message, and an unparsable logging level with the message listing the nine levels; otherwise the options are the resolved settings |
| Mojo.ClosureCompilerMojo.ParseCompilationLevel | src/main/java/com/github/pukkaone/closurecompilermavenplugin/ClosureCompilerMojo.java:220-232 | a valid name applies its preset; any other fails with the message listing the levels and leaves the options unchanged |
| Mojo.ClosureCompilerMojo.ParseWarningLevel | src/main/java/com/github/pukkaone/closurecompilermavenplugin/ClosureCompilerMojo.java:234-246 | a valid name applies its preset; any other fails with the message listing the levels and leaves the options unchanged |
| Mojo.ClosureCompilerMojo.ParseEntryPoints | src/main/java/com/github/pukkaone/closurecompilermavenplugin/ClosureCompilerMojo.java:248-253 | entry points, when given, are set verbatim, and nothing else changes |
| Mojo.ClosureCompilerMojo.ParseFormattingOptions | src/main/java/com/github/pukkaone/closurecompilermavenplugin/ClosureCompilerMojo.java:255-268 | the sentinel changes nothing; each option name sets only its own flag; any other string fails and changes nothing |
| Mojo.ClosureCompilerMojo.ParseExterns | src/main/java/com/github/pukkaone/closurecompilermavenplugin/ClosureCompilerMojo.java:282-302 | the list returned is ResolveExterns; on failure nothing is logged; on success the optional listing names every extern in order and does not alter the list |
| Mojo.ClosureCompilerMojo.ParseSources | src/main/java/com/github/pukkaone/closurecompilermavenplugin/ClosureCompilerMojo.java:304-319 | the sources are the scanned names unchanged, optionally listed after a header |
| Mojo.ClosureCompilerMojo.LogListing | src/main/java/com/github/pukkaone/closurecompilermavenplugin/ClosureCompilerMojo.java:296-299 | the header, then one info line per path, in order |
| Mojo.ClosureCompilerMojo.Compile | src/main/java/com/github/pukkaone/closurecompilermavenplugin/ClosureCompilerMojo.java:177-194 | one compiler call is recorded; the log grows by what Gate logs, and the result is Gate's outcome |
| Mojo.ClosureCompilerMojo.LogWarnings | src/main/java/com/github/pukkaone/closurecompilermavenplugin/ClosureCompilerMojo.java:196-206 | every warning is logged at warn level, in order; the result is a failure exactly when stopOnWarnings is set and there was a warning |
| Mojo.ClosureCompilerMojo.LogErrors | src/main/java/com/github/pukkaone/closurecompilermavenplugin/ClosureCompilerMojo.java:208-218 | every error is logged at error level, in order; the result is a failure exactly when stopOnErrors is set and there was an error |
| Mojo.ClosureCompilerMojo.Write | src/main/java/com/github/pukkaone/closurecompilermavenplugin/ClosureCompilerMojo.java:161-163 | a failing write reports its message and changes no file; otherwise the destination's content becomes the text |
| Properties.PerFileStep | src/main/java/com/github/pukkaone/closurecompilermavenplugin/ClosureCompilerMojo.java:153-164 | a successful unit lets the loop go on with its output written; a failing unit ends it with its message, after its compiler call, with the files unchanged |
| Properties.InvalidParametersStopFirst | src/main/java/com/github/pukkaone/closurecompilermavenplugin/ClosureCompilerMojo.java:131-138 | an invalid parameter ends the goal with nothing logged, compiled or written, and the message of the first invalid parameter in the order checked |
| Properties.DefaultExternsFailureStops | src/main/java/com/github/pukkaone/closurecompilermavenplugin/ClosureCompilerMojo.java:284-290 | when the default externs cannot be fetched, the goal fails with "Default externs adding error" before any listing, compilation or write |
| Properties.MergeCompilesOnce | src/main/java/com/github/pukkaone/closurecompilermavenplugin/ClosureCompilerMojo.java:144-151 | merge mode makes exactly one compiler call, over every source in scanner order; it succeeds exactly when the gate passes and the write works, and then changes only the output file |
| Properties.PerFileSucceedsIff | src/main/java/com/github/pukkaone/closurecompilermavenplugin/ClosureCompilerMojo.java:152-164 | per-file mode succeeds exactly when every unit passes the gate and its write works |
| Properties.PerFileWritesEveryUnit | src/main/java/com/github/pukkaone/closurecompilermavenplugin/ClosureCompilerMojo.java:152-164 | when every unit succeeds, the files afterwards are those before with each unit's output written over them, in order, and nothing else |
| Properties.PerFileCompilesEachAlone | src/main/java/com/github/pukkaone/closurecompilermavenplugin/ClosureCompilerMojo.java:153-159 | when every unit succeeds, there is one compiler call per source, in order, each with that source alone and the same externs and options |
| Properties.PerFileStopsAtFirstFailure | src/main/java/com/github/pukkaone/closurecompilermavenplugin/ClosureCompilerMojo.java:152-167 | when unit k is the first to fail, the goal fails with its message, the outputs of the earlier units stay written, and nothing else changes |
| Properties.PerFileCompilesUpToFailure | src/main/java/com/github/pukkaone/closurecompilermavenplugin/ClosureCompilerMojo.java:153-159 | when unit k is the first to fail, the compiler is called for the units up to k, each alone, and for none after it |
| Properties.OutputsAt | src/main/java/com/github/pukkaone/closurecompilermavenplugin/ClosureCompilerMojo.java:160-163 | for distinct sources, each destination written holds its own unit's text |
| Properties.OutputsOnlyDests | src/main/java/com/github/pukkaone/closurecompilermavenplugin/ClosureCompilerMojo.java:160-163 | a path that is no unit's destination is not written |
| Properties.PerFileEachDestHoldsItsText | src/main/java/com/github/pukkaone/closurecompilermavenplugin/ClosureCompilerMojo.java:153-164 | with distinct sources that all succeed, each source's destination ends up holding that source's compiled text |
| Properties.PerFileTouchesOnlyDests | src/main/java/com/github/pukkaone/closurecompilermavenplugin/ClosureCompilerMojo.java:153-164 | a file that is no source's destination is left as it was |
| Properties.GoalSucceedsIff | src/main/java/com/github/pukkaone/closurecompilermavenplugin/ClosureCompilerMojo.java:130-169 | the goal succeeds exactly when the parameters are valid, the externs resolve, and either the merged unit or every per-file unit passes the gate and is written |

## Left out

- `Compiler.compile` and `toSource`: the compilation itself. It is a function in `Platform`; each warning and error is its `toString()` text.
- `setOptionsForCompilationLevel` and `setOptionsForWarningLevel`: the preset contents belong to the compiler library. `CompilerOptions` records which preset was applied.
- `CompilationLevel` and `WarningLevel` declaration order: the values and their order in the invalid-level messages are those of the compiler library; the library is not part of this model.
- `setManageClosureDependencies`: it is recorded as the entry point list it receives; the other dependency options it switches on are library code.
- Mojo.ClosureCompilerMojo.ParseLoggingLevel: it only passes on the verdict of `Level.parse`, the `levelParses` parameter, and promises nothing about particular level names. The outcome it gives the goal is stated by `Configure`.
- `Level.parse`: which strings it accepts, numeric ones included, is the `levelParses` function. `Compiler.setLoggingLevel` changes process-wide state and is not modelled.
- `CommandLineRunner.getDefaultExterns`: its contents are a parameter; its IOException is `None`.
- `DirectoryScanner`: the include pattern, the default excludes and the scan are not modelled. The scanned names are a parameter that ends in `.js`, in scanner order.
- File I/O: `createParentDirs`, `touch` and `write` are one map update, and parent directories are not modelled.
- Mojo.ClosureCompilerMojo.Write: a failing write is modelled as leaving the file unchanged, though on disk `touch` may already have created it empty, or the write may have truncated it.
- UTF-8 encoding: files hold strings, not bytes.
- Path strings:
  - the model describes a Unix host: `new File(parent, child)` joins with `/` and `File.compareTo` compares case-sensitively. On Windows Java joins with `\` and compares paths ignoring case, so there, for example, `a.js` sorts before `B.js` while the model puts `B.js` first;
  - `java.io.File` path normalisation is not modelled; a child path is the parent, "/" and the child;
  - `File.compareTo` is modelled as a lexicographic comparison of characters, ordered by Unicode code point. Java compares UTF-16 code units, so the two orders differ for extern paths that mix characters U+E000 to U+FFFF with supplementary characters: Java puts the supplementary character first, the model puts it last.
- `listFiles`: the extern tree is finite and acyclic. The Java walk recurses into every entry that is not a regular file, symbolic links to directories included, so a link cycle under the externs directory recurses until the stack overflows; that non-termination is not modelled.
- `listFiles`: each entry's path is taken as the tree gives it. The model does not require a child's path to be its parent's path, a separator and its name, as `getPath()` makes it in Java.
- `listFiles`: the second `directory.listFiles()` call is assumed to return the same entries as the first. Each entry is a regular file, a listable directory or an unlistable entry.
- `ListFilesInto`: the shared `foundFiles` list the Java version appends to is threaded through as a value rather than aliased.
- `Paths.SortPaths`: `Collections.sort` is modelled as a function on sequences, not an in-place sort of the `ArrayList`.
- `FormattingOption.applyToOptions`: its `default` branch cannot be reached and is not modelled.
- `Lists.transform`: its lazy views are modelled as the sequences they present.
- Maven parameter injection and the `AbstractMojo` lifecycle: the parameters are a `Config` value fixed for the goal's run.
- Exceptions: a `MojoFailureException` is a `Failed` outcome carrying its message; the exception's cause is not kept.
