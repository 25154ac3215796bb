/** What the compiler reports and what compile does with it: every warning
    is logged, then every error, then the stop flags and the success flag
    decide whether the unit fails and with which message. */
module Diagnostics {
  import opened Results

  /** The severities the goal logs at through getLog(). */
  datatype Level = Info | Warn | Error

  datatype LogEntry = LogEntry(level: Level, message: string)

  /** Compiler.compile's Result, each diagnostic as its JSError.toString(),
      together with what toSource() returns afterwards. */
  datatype CompileResult = CompileResult(success: bool, warnings: seq<string>, errors: seq<string>, source: string)

  const HasWarnings := "Compilation failed: has warnings"
  const HasErrors := "Compilation failed: has errors"
  const CompilationFailure := "Compilation failure"

  /** The log entries that one message per line at one level produces. */
  function Entries(level: Level, messages: seq<string>): (r: seq<LogEntry>)
    ensures |r| == |messages|
    ensures forall i :: 0 <= i < |r| ==> r[i] == LogEntry(level, messages[i])
  {
    if messages == [] then []
    else Entries(level, messages[..|messages| - 1]) + [LogEntry(level, messages[|messages| - 1])]
  }

  /** Logging one more message extends the entries by exactly its line. */
  lemma EntriesStep(level: Level, messages: seq<string>, i: nat)
    requires i < |messages|
    ensures Entries(level, messages[..i + 1]) == Entries(level, messages[..i]) + [LogEntry(level, messages[i])]
  {
    assert messages[..i + 1][..i] == messages[..i];
  }

  /** What compile logs and how it ends, once the compiler has returned `r`. */
  datatype Verdict = Verdict(logged: seq<LogEntry>, outcome: Result<string>)

  /** compile after the compiler call: logWarnings (which may stop on
      warnings), logErrors (which may stop on errors), the success test, and
      finally the compiled text. */
  function Gate(stopOnWarnings: bool, stopOnErrors: bool, r: CompileResult): (v: Verdict)
    ensures v.outcome.Success? <==>
      r.success && !(stopOnWarnings && r.warnings != []) && !(stopOnErrors && r.errors != [])
    ensures v.outcome.Success? ==> v.outcome.value == r.source
    ensures v.outcome.Failure? ==> v.outcome.message in {HasWarnings, HasErrors, CompilationFailure}
    ensures |r.warnings| <= |v.logged| && v.logged[..|r.warnings|] == Entries(Warn, r.warnings)
  {
    var warned := Entries(Warn, r.warnings);
    if stopOnWarnings && r.warnings != [] then Verdict(warned, Failure(HasWarnings))
    else
      var logged := warned + Entries(Error, r.errors);
      if stopOnErrors && r.errors != [] then Verdict(logged, Failure(HasErrors))
      else if !r.success then Verdict(logged, Failure(CompilationFailure))
      else Verdict(logged, Success(r.source))
  }

  /** A compiler failure always fails the unit, whatever the flags; the
      message is that of the first check that trips. */
  lemma GateFailureAlwaysFails(stopOnWarnings: bool, stopOnErrors: bool, r: CompileResult)
    requires !r.success
    ensures Gate(stopOnWarnings, stopOnErrors, r).outcome ==
      Failure(if stopOnWarnings && r.warnings != [] then HasWarnings
              else if stopOnErrors && r.errors != [] then HasErrors
              else CompilationFailure)
  {
  }

  /** With stopOnWarnings and at least one warning: every warning is logged at
      warn level in order, no error is logged, and the unit fails on warnings. */
  lemma GateStopsOnWarnings(stopOnErrors: bool, r: CompileResult)
    requires r.warnings != []
    ensures var v := Gate(true, stopOnErrors, r);
      && v.outcome == Failure(HasWarnings)
      && v.logged == Entries(Warn, r.warnings)
      && forall e :: e in v.logged ==> e.level != Error
  {
  }

  /** With stopOnErrors and at least one error (and no warning stop before
      it): every warning and then every error is logged in order, and the
      unit fails on errors even when the compiler reported success. */
  lemma GateStopsOnErrors(stopOnWarnings: bool, r: CompileResult)
    requires r.errors != [] && !(stopOnWarnings && r.warnings != [])
    ensures var v := Gate(stopOnWarnings, true, r);
      && v.outcome == Failure(HasErrors)
      && v.logged == Entries(Warn, r.warnings) + Entries(Error, r.errors)
  {
  }

  /** A successful compilation without errors fails on its warnings exactly
      when stopOnWarnings is set; otherwise its text is the unit's output. */
  lemma GateWarningsStrictness(stopOnWarnings: bool, stopOnErrors: bool, r: CompileResult)
    requires r.success && r.errors == [] && r.warnings != []
    ensures Gate(stopOnWarnings, stopOnErrors, r).outcome ==
      if stopOnWarnings then Failure(HasWarnings) else Success(r.source)
  {
  }

  /** When no stop trips, every warning and every error is logged, warnings first. */
  lemma GateLogsEverything(stopOnWarnings: bool, stopOnErrors: bool, r: CompileResult)
    requires !(stopOnWarnings && r.warnings != [])
    ensures Gate(stopOnWarnings, stopOnErrors, r).logged == Entries(Warn, r.warnings) + Entries(Error, r.errors)
  {
  }
}
