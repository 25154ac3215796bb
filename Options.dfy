/** The options the goal hands to the compiler: the closed enumerations it
    resolves by name (Enum.valueOf), the goal's own FormattingOption, and the
    CompilerOptions object whose fields the parse steps assign. */
module Options {
  import opened Results

  /** The compiler library's CompilationLevel, in declaration order. */
  datatype CompilationLevel = WhitespaceOnly | SimpleOptimizations | AdvancedOptimizations
  {
    function Name(): string
    {
      match this
      case WhitespaceOnly => "WHITESPACE_ONLY"
      case SimpleOptimizations => "SIMPLE_OPTIMIZATIONS"
      case AdvancedOptimizations => "ADVANCED_OPTIMIZATIONS"
    }
  }

  /** The compiler library's WarningLevel, in declaration order. */
  datatype WarningLevel = Quiet | Default | Verbose
  {
    function Name(): string
    {
      match this
      case Quiet => "QUIET"
      case Default => "DEFAULT"
      case Verbose => "VERBOSE"
    }
  }

  /** The goal's FormattingOption. */
  datatype FormattingOption = PrettyPrint | PrintInputDelimiter
  {
    function Name(): string
    {
      match this
      case PrettyPrint => "PRETTY_PRINT"
      case PrintInputDelimiter => "PRINT_INPUT_DELIMITER"
    }

    /** applyToOptions: each option switches on exactly its own flag. */
    method ApplyToOptions(options: CompilerOptions)
      modifies options
      ensures this == PrettyPrint ==> options.Snapshot() == old(options.Snapshot()).(prettyPrint := true)
      ensures this == PrintInputDelimiter ==> options.Snapshot() == old(options.Snapshot()).(printInputDelimiter := true)
    {
      match this
      case PrettyPrint => options.prettyPrint := true;
      case PrintInputDelimiter => options.printInputDelimiter := true;
    }
  }

  /** The messages that list each enumeration's values, as Arrays.asList(values()) prints them. */
  const CompilationLevelInvalid := "Compilation level invalid (values: [WHITESPACE_ONLY, SIMPLE_OPTIMIZATIONS, ADVANCED_OPTIMIZATIONS])"
  const WarningLevelInvalid := "Warning level invalid (values: [QUIET, DEFAULT, VERBOSE])"
  const FormattingInvalid := "Formatting invalid (values: [PRETTY_PRINT, PRINT_INPUT_DELIMITER])"

  /** CompilationLevel.valueOf: the member with exactly that name, if any. */
  function CompilationLevelOf(name: string): (r: Option<CompilationLevel>)
    ensures r.Some? ==> r.value.Name() == name
    ensures r.None? ==> forall l: CompilationLevel :: l.Name() != name
  {
    if name == "WHITESPACE_ONLY" then Some(WhitespaceOnly)
    else if name == "SIMPLE_OPTIMIZATIONS" then Some(SimpleOptimizations)
    else if name == "ADVANCED_OPTIMIZATIONS" then Some(AdvancedOptimizations)
    else None
  }

  /** WarningLevel.valueOf. */
  function WarningLevelOf(name: string): (r: Option<WarningLevel>)
    ensures r.Some? ==> r.value.Name() == name
    ensures r.None? ==> forall l: WarningLevel :: l.Name() != name
  {
    if name == "QUIET" then Some(Quiet)
    else if name == "DEFAULT" then Some(Default)
    else if name == "VERBOSE" then Some(Verbose)
    else None
  }

  /** FormattingOption.valueOf. */
  function FormattingOptionOf(name: string): (r: Option<FormattingOption>)
    ensures r.Some? ==> r.value.Name() == name
    ensures r.None? ==> forall f: FormattingOption :: f.Name() != name
  {
    if name == "PRETTY_PRINT" then Some(PrettyPrint)
    else if name == "PRINT_INPUT_DELIMITER" then Some(PrintInputDelimiter)
    else None
  }

  /** The decision parseFormattingOptions makes: a Java null or the string
      "null" asks for no formatting; any other string must name a
      FormattingOption. */
  function ResolveFormatting(formatting: Option<string>): (r: Result<Option<FormattingOption>>)
    ensures r == Success(None) <==> formatting == None || formatting == Some("null")
    ensures r.Success? && r.value.Some? ==> formatting == Some(r.value.value.Name())
    ensures r.Failure? <==>
      formatting.Some? && formatting.value != "null" && forall f: FormattingOption :: f.Name() != formatting.value
    ensures r.Failure? ==> r.message == FormattingInvalid
  {
    if formatting == None || formatting == Some("null") then Success(None)
    else
      var option := FormattingOptionOf(formatting.value);
      if option.None? then Failure(FormattingInvalid) else Success(option)
  }

  /** What the compiler is given: the presets applied, the entry points for
      dependency management, and the flags the goal sets. */
  datatype Settings = Settings(
    compilationLevel: Option<CompilationLevel>,
    warningLevel: Option<WarningLevel>,
    closureEntryPoints: Option<seq<string>>,
    generateExports: bool,
    prettyPrint: bool,
    printInputDelimiter: bool)

  /** A fresh CompilerOptions: no preset applied, nothing switched on. */
  const DefaultSettings := Settings(None, None, None, false, false, false)

  /** The compiler library's CompilerOptions, reduced to the fields the goal
      assigns. A preset is recorded as the level whose
      setOptionsFor... method was applied. */
  class CompilerOptions {
    var compilationLevel: Option<CompilationLevel>
    var warningLevel: Option<WarningLevel>
    var closureEntryPoints: Option<seq<string>>
    var generateExports: bool
    var prettyPrint: bool
    var printInputDelimiter: bool

    constructor ()
      ensures Snapshot() == DefaultSettings
    {
      compilationLevel := None;
      warningLevel := None;
      closureEntryPoints := None;
      generateExports := false;
      prettyPrint := false;
      printInputDelimiter := false;
    }

    /** The options as the compiler reads them. */
    function Snapshot(): Settings
      reads this
    {
      Settings(compilationLevel, warningLevel, closureEntryPoints, generateExports, prettyPrint, printInputDelimiter)
    }
  }
}
