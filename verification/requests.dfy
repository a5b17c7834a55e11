/** What the makers ask of the code generators and the console. The class
    generator, template generator, language-file generator, the maker
    bundle's `Generator` and the console are not part of this model: each
    request they receive is recorded, in order, as an `Effect`, with the
    options array it is given. */
module Requests {
  import opened PhpValues

  /** What `Generator::createClassNameDetails($name, $namespacePrefix)`
      returns; computed by the maker bundle and passed in. */
  datatype ClassNameDetails = ClassNameDetails(fullName: string, shortName: string, relativeNameWithoutSuffix: string)

  /** The generator services a maker hands an options array to. */
  datatype GeneratorService = ClassGenerator | TemplateGenerator | DcaGenerator | LanguageFileGenerator

  datatype Effect =
    | ErrorMessage(text: string)
    | Generate(service: GeneratorService, options: map<string, Value>)
    | Abort(reason: string)
    | WriteChanges
    | SuccessMessage

  /** The console style object passed to the generators as the `io` option. */
  const ConsoleStyle: Value := Object("Symfony\\Bundle\\MakerBundle\\ConsoleStyle")

  /** The options of `$this->classGenerator->generate([...])`. */
  function ClassRequest(source: string, fqcn: string, variables: map<string, Value>): (e: Effect)
    ensures e.Generate? && e.service == ClassGenerator
    ensures e.options.Keys == {"source", "fqcn", "variables"}
    ensures e.options["variables"] == Array(variables)
  {
    Generate(ClassGenerator, map["source" := Text(source), "fqcn" := Text(fqcn), "variables" := Array(variables)])
  }

  /** Whether a run of requests writes the generated files. */
  predicate Writes(effects: seq<Effect>) {
    WriteChanges in effects
  }
}
