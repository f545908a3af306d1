/**
  What surrounds the engine in one run of the tool: the default output
  path, the YAML-then-JSON order of `load_config`, the choice of output
  format by file extension in `save_config`, and the exit status of `main`.

  Reading, parsing, dumping and writing files are not modelled; what they
  produced (a parsed tree, a syntax error, a failed write) is a parameter.
*/
module Run {
  import opened Document
  import opened Obfuscator

  /** `output_file if output_file else input_file`: no output path, or an empty one, means the input path. */
  function OutputPath(inputFile: string, outputFile: Option<string>): (path: string)
    ensures outputFile.Some? && outputFile.value != "" ==> path == outputFile.value
    ensures outputFile.None? || outputFile.value == "" ==> path == inputFile
  {
    match outputFile
    case Some(p) => if p != "" then p else inputFile
    case None => inputFile
  }

  datatype Format = Yaml | Json

  /** The format `save_config` writes in, and whether it logs the unknown-extension warning. */
  datatype FormatChoice = FormatChoice(format: Format, warning: bool)

  /** Python's `str.endswith`, which compares characters exactly (no case folding). */
  predicate EndsWith(s: string, suffix: string)
  {
    |suffix| <= |s| && s[|s| - |suffix|..] == suffix
  }

  /** A path cannot end both in `.json` and in a YAML extension: the last letters differ. */
  lemma JsonIsNotYaml(path: string)
    ensures EndsWith(path, ".json") ==> !EndsWith(path, ".yaml") && !EndsWith(path, ".yml")
  {
  }

  /**
    The extension dispatch of `save_config`: `.yaml` and `.yml` give YAML,
    `.json` gives JSON, anything else gives YAML with a warning.
  */
  function ChooseFormat(path: string): (c: FormatChoice)
    ensures c.format == Json <==> EndsWith(path, ".json")
    ensures c.warning <==> !EndsWith(path, ".yaml") && !EndsWith(path, ".yml") && !EndsWith(path, ".json")
  {
    JsonIsNotYaml(path);
    if EndsWith(path, ".yaml") || EndsWith(path, ".yml") then FormatChoice(Yaml, false)
    else if EndsWith(path, ".json") then FormatChoice(Json, false)
    else FormatChoice(Yaml, true)
  }

  /** The suffix test is case-sensitive: `X.JSON` is written as YAML, with the warning. */
  lemma UpperCaseJsonIsYaml()
    ensures ChooseFormat("X.JSON") == FormatChoice(Yaml, true)
    ensures ChooseFormat("x.json") == FormatChoice(Json, false)
    ensures ChooseFormat("x.yml") == FormatChoice(Yaml, false)
  {
  }

  /** What one parser made of the file's text. */
  datatype ParseOutcome =
    | Parsed(doc: Node)
    | SyntaxError    // `yaml.YAMLError` or `json.JSONDecodeError`
    | OtherError     // any other exception, caught by the outer handler

  /**
    `load_config`: no document when the file cannot be read; otherwise the
    YAML parse when it succeeds; after a YAML syntax error only, the JSON
    parse. Any other failure gives no document.
  */
  function LoadConfig(readOk: bool, yaml: ParseOutcome, json: ParseOutcome): (r: Option<Node>)
    ensures r.Some? <==> readOk && (yaml.Parsed? || (yaml.SyntaxError? && json.Parsed?))
    ensures r.Some? && yaml.Parsed? ==> r.value == yaml.doc
    ensures r.Some? && !yaml.Parsed? ==> r.value == json.doc
  {
    if !readOk then None
    else
      match yaml
      case Parsed(d) => Some(d)
      case OtherError => None
      case SyntaxError =>
        match json
        case Parsed(d) => Some(d)
        case _ => None
  }

  /** How the process ends: `main`'s return value, or an exception nobody catches. */
  datatype Exit = Status(code: int) | Uncaught

  /** The document `save_config` was asked to write, where, and in which format. */
  datatype WriteRequest = WriteRequest(path: string, format: Format, doc: Node)

  datatype RunResult = RunResult(exit: Exit, written: Option<WriteRequest>)

  /**
    `main` after argument parsing. The run succeeds only when the input
    exists, loads to a non-empty mapping the engine can walk, and the write
    succeeds. A loaded document that is false in Python (no document, an
    empty mapping, an empty file) gives status 1 without a write; a true one
    that is not a mapping, or that holds a string under a non-string key,
    makes the engine raise.
  */
  function RunMain(inputExists: bool, loaded: Option<Node>, inputFile: string, outputFile: Option<string>,
                   ph: string, writeOk: bool): (r: RunResult)
    ensures r.exit == Status(0) <==>
      inputExists && loaded.Some? && loaded.value.Map? && loaded.value.entries != [] && WellKeyed(loaded.value) && writeOk
    ensures r.exit == Uncaught <==>
      inputExists && loaded.Some? && Truthy(loaded.value) && !(loaded.value.Map? && WellKeyed(loaded.value))
    ensures r.exit.Status? ==> r.exit.code == 0 || r.exit.code == 1
    ensures r.written.Some? <==> inputExists && loaded.Some? && Truthy(loaded.value) && loaded.value.Map? && WellKeyed(loaded.value)
    ensures r.written.Some? ==>
      && loaded.Some? && loaded.value.Map? && WellKeyed(loaded.value)
      && r.written.value.path == OutputPath(inputFile, outputFile)
      && r.written.value.format == ChooseFormat(OutputPath(inputFile, outputFile)).format
      && r.written.value.doc == Map(ObfuscateConfig(loaded.value.entries, ph))
  {
    if !inputExists then RunResult(Status(1), None)
    else
      match loaded
      case None => RunResult(Status(1), None)
      case Some(config) =>
        if !Truthy(config) then RunResult(Status(1), None)
        else if !config.Map? || !WellKeyed(config) then RunResult(Uncaught, None)
        else
          var path := OutputPath(inputFile, outputFile);
          var request := WriteRequest(path, ChooseFormat(path).format, Map(ObfuscateConfig(config.entries, ph)));
          RunResult(Status(if writeOk then 0 else 1), Some(request))
  }

  /** An empty mapping is false in Python: the run ends with status 1 and writes nothing. */
  lemma EmptyMappingFails(inputFile: string, outputFile: Option<string>, ph: string, writeOk: bool)
    ensures RunMain(true, Some(Map([])), inputFile, outputFile, ph, writeOk) == RunResult(Status(1), None)
  {
  }

  /** Without an output path the redacted document is written over the input file. */
  lemma {:induction false} OverwritesInputByDefault(loaded: Option<Node>, inputFile: string, ph: string, writeOk: bool)
    requires RunMain(true, loaded, inputFile, None, ph, writeOk).written.Some?
    ensures RunMain(true, loaded, inputFile, None, ph, writeOk).written.value.path == inputFile
  {
  }
}
