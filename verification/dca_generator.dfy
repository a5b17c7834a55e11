/** `DcaGenerator` (src/Generator/DcaGenerator.php): resolves its options,
    renders a DCA skeleton and writes it to `<config root>/dca/<domain>.php`
    of the last resources path, appending to the file when it exists. The
    template engine (`FileManager::parseTemplate`) and
    `FileManager::relativizePath` are not part of this model and are passed
    in as functions; the file system is an object holding the file
    contents by path. */
module DcaGeneration {
  import opened PhpValues
  import opened PhpStrings
  import opened Requests

  /** The options `configureOptions` requires. */
  const RequiredOptions: set<string> := {"domain", "source", "element", "io"}

  /** Every option `configureOptions` defines: the required ones and
      `variables`, which defaults to an empty array. */
  const DefinedOptions: set<string> := RequiredOptions + {"variables"}

  /** The exceptions `generate` can end with: those of the options resolver
      (unknown options, missing options, an `io` that is not a console
      style) and the type errors of the strictly typed calls it makes. */
  datatype GenerateError =
    | UndefinedOptions(names: set<string>)
    | MissingOptions(names: set<string>)
    | InvalidOption(name: string)
    | TypeError(argument: string)

  /** A description of an exception of `generate`, as a maker reports it
      when the exception ends the command. */
  function Describe(e: GenerateError): string {
    match e
    case UndefinedOptions(_) => "undefined options"
    case MissingOptions(_) => "missing required options"
    case InvalidOption(name) => "invalid value for the option " + name
    case TypeError(argument) => "type error in " + argument
  }

  /** `$resolver->resolve($options)` with the resolver `configureOptions`
      sets up: unknown options are reported first, then missing ones, then
      an `io` of the wrong type; otherwise the options with `variables`
      defaulted. */
  function ResolveOptions(options: map<string, Value>): (r: Result<map<string, Value>, GenerateError>)
    ensures r.Success? <==> options.Keys <= DefinedOptions && RequiredOptions <= options.Keys && options["io"] == ConsoleStyle
    ensures !(options.Keys <= DefinedOptions) ==> r == Failure(UndefinedOptions(options.Keys - DefinedOptions))
    ensures options.Keys <= DefinedOptions && !(RequiredOptions <= options.Keys) ==> r == Failure(MissingOptions(RequiredOptions - options.Keys))
    ensures r.Success? ==> r.value.Keys == DefinedOptions
    ensures r.Success? ==> forall k :: k in options ==> r.value[k] == options[k]
    ensures r.Success? && "variables" !in options ==> r.value["variables"] == Array(map[])
  {
    if !(options.Keys <= DefinedOptions) then Failure(UndefinedOptions(options.Keys - DefinedOptions))
    else if !(RequiredOptions <= options.Keys) then Failure(MissingOptions(RequiredOptions - options.Keys))
    else if options["io"] != ConsoleStyle then Failure(InvalidOption("io"))
    else Success(map["variables" := Array(map[])] + options)
  }

  /** `getConfigRoot()`: the resources path under the last key. With no
      resources path `array_key_last` gives null, the lookup gives null and
      the `string` return type is violated. */
  function ConfigRoot(resourcesPaths: seq<string>): (r: Option<string>)
    ensures r.None? <==> resourcesPaths == []
    ensures r.Some? ==> r.value == resourcesPaths[|resourcesPaths| - 1]
  {
    if resourcesPaths == [] then None else Some(resourcesPaths[|resourcesPaths| - 1])
  }

  /** `sprintf('%s/dca/%s.php', $configRoot, ltrim($domain, '/'))`. */
  function Target(configRoot: string, domain: string): string {
    configRoot + "/dca/" + LTrim(domain, {'/'}) + ".php"
  }

  /** `getSourcePath($path)`: the skeleton directory next to the generator's
      own directory. */
  function SourcePath(generatorDir: string, path: string): string {
    generatorDir + "/../Resources/skeleton/" + LTrim(path, {'/'})
  }

  /** The source is looked up under `<generator dir>/../Resources/skeleton/`,
      by the path without its leading slashes, so a leading slash makes no
      difference. */
  lemma SourcePathShape(generatorDir: string, path: string)
    ensures var p := SourcePath(generatorDir, path);
      && p[..|generatorDir| + 23] == generatorDir + "/../Resources/skeleton/"
      && p[|generatorDir| + 23..] == LTrim(path, {'/'})
      && (LTrim(path, {'/'}) == [] || LTrim(path, {'/'})[0] != '/')
    ensures SourcePath(generatorDir, "/" + path) == SourcePath(generatorDir, path)
  {
    LTrimSpec(path, {'/'});
    assert ("/" + path)[1..] == path;
  }

  /** `array_merge(['append' => $fileExists, 'element_name' => $element],
      $variables)`: the caller's variables win. */
  function TemplateVariables(fileExists: bool, element: Value, variables: map<string, Value>): map<string, Value> {
    map["append" := Flag(fileExists), "element_name" := element] + variables
  }

  /** The new contents of the target: the rendered template without
      leading whitespace, placed after the existing contents (without
      trailing whitespace) and an empty line when the file exists. */
  function Contents(existing: Option<string>, rendered: string): string {
    if existing.None? then LTrim(rendered, TrimSpace)
    else RTrim(existing.value, TrimSpace) + "\n\n" + LTrim(rendered, TrimSpace)
  }

  /** The comment written to the console. */
  function Comment(fileExists: bool, relativeTarget: string): string {
    (if !fileExists then "<fg=blue>created</>" else "<fg=yellow>updated</>") + ": " + relativeTarget
  }

  /** What one successful `generate` writes and reports. */
  datatype Dump = Dump(target: string, contents: string, comment: string)

  /** The whole of `generate` on the files `files`: the exception it ends
      with, or the file it writes and the comment it prints. */
  function Generation(
    resourcesPaths: seq<string>, generatorDir: string, files: map<string, string>, options: map<string, Value>,
    parseTemplate: (string, map<string, Value>) -> string, relativizePath: string -> string): Result<Dump, GenerateError>
  {
    match ResolveOptions(options)
    case Failure(e) => Failure(e)
    case Success(resolved) =>
      if !resolved["source"].Text? then Failure(TypeError("source"))
      else if ConfigRoot(resourcesPaths).None? then Failure(TypeError("getConfigRoot"))
      else if !resolved["domain"].Text? then Failure(TypeError("domain"))
      else if !resolved["variables"].Array? then Failure(TypeError("variables"))
      else
        var source := SourcePath(generatorDir, resolved["source"].s);
        var target := Target(ConfigRoot(resourcesPaths).value, resolved["domain"].s);
        var fileExists := target in files;
        var rendered := parseTemplate(source, TemplateVariables(fileExists, resolved["element"], resolved["variables"].entries));
        var existing := if fileExists then Some(files[target]) else None;
        Success(Dump(target, Contents(existing, rendered), Comment(fileExists, relativizePath(target))))
  }

  /** The file system the generator writes through: file contents by
      path. */
  class Filesystem {
    var files: map<string, string>

    constructor(files: map<string, string>)
      ensures this.files == files
    {
      this.files := files;
    }

    /** `$filesystem->exists($path)`. */
    function Exists(path: string): (b: bool)
      reads this
      ensures b <==> path in files
    {
      path in files
    }

    /** `file_get_contents($path)` of an existing file. */
    function GetContents(path: string): (contents: string)
      reads this
      requires path in files
      ensures contents == files[path]
    {
      files[path]
    }

    /** `$filesystem->dumpFile($path, $contents)`: creates or replaces the
        file; every other file is left alone. */
    method DumpFile(path: string, contents: string)
      modifies this
      ensures files == old(files)[path := contents]
    {
      files := files[path := contents];
    }
  }

  /** The generator with its collaborators and configuration. */
  class DcaGenerator {
    const filesystem: Filesystem
    const resourcesPaths: seq<string>
    const projectDir: string
    /** `__DIR__` of the generator class. */
    const generatorDir: string

    constructor(filesystem: Filesystem, resourcesPaths: seq<string>, projectDir: string, generatorDir: string)
      ensures this.filesystem == filesystem && this.resourcesPaths == resourcesPaths
      ensures this.projectDir == projectDir && this.generatorDir == generatorDir
    {
      this.filesystem := filesystem;
      this.resourcesPaths := resourcesPaths;
      this.projectDir := projectDir;
      this.generatorDir := generatorDir;
    }

    /** `generate($options)`: on success the target is written and
        returned with the comment printed for it; on an exception nothing is
        written. */
    method Generate(options: map<string, Value>, parseTemplate: (string, map<string, Value>) -> string, relativizePath: string -> string)
      returns (r: Result<string, GenerateError>, comment: Option<string>)
      modifies filesystem
      ensures var g := Generation(resourcesPaths, generatorDir, old(filesystem.files), options, parseTemplate, relativizePath);
        && (g.Failure? ==> r == Failure(g.error) && comment == None && filesystem.files == old(filesystem.files))
        && (g.Success? ==>
              && r == Success(g.value.target) && comment == Some(g.value.comment)
              && filesystem.files == old(filesystem.files)[g.value.target := g.value.contents])
    {
      comment := None;
      var resolved := ResolveOptions(options);
      if resolved.Failure? {
        return Failure(resolved.error), None;
      }
      var opts := resolved.value;
      if !opts["source"].Text? {
        return Failure(TypeError("source")), None;
      }
      var source := SourcePath(generatorDir, opts["source"].s);
      var configRoot := ConfigRoot(resourcesPaths);
      if configRoot.None? {
        return Failure(TypeError("getConfigRoot")), None;
      }
      if !opts["domain"].Text? {
        return Failure(TypeError("domain")), None;
      }
      var target := configRoot.value + "/dca/" + LTrim(opts["domain"].s, {'/'}) + ".php";
      var fileExists := filesystem.Exists(target);
      if !opts["variables"].Array? {
        return Failure(TypeError("variables")), None;
      }
      var variables := map["append" := Flag(fileExists), "element_name" := opts["element"]] + opts["variables"].entries;
      var contents := parseTemplate(source, variables);
      contents := LTrim(contents, TrimSpace);
      if fileExists {
        contents := RTrim(filesystem.GetContents(target), TrimSpace) + "\n\n" + contents;
      }
      filesystem.DumpFile(target, contents);
      var action := if !fileExists then "<fg=blue>created</>" else "<fg=yellow>updated</>";
      comment := Some(action + ": " + relativizePath(target));
      r := Success(target);
    }
  }

  // ---------------------------------------------------------------------
  // What generating promises

  /** The target lies in the `dca` directory of the last resources path,
      is named after the domain without leading slashes and ends in
      `.php`. */
  lemma TargetShape(configRoot: string, domain: string)
    ensures var t := Target(configRoot, domain);
      && t[..|configRoot| + 5] == configRoot + "/dca/"
      && t[|t| - 4..] == ".php"
      && t[|configRoot| + 5..|t| - 4] == LTrim(domain, {'/'})
      && (LTrim(domain, {'/'}) == [] || LTrim(domain, {'/'})[0] != '/')
    ensures Target(configRoot, "/" + domain) == Target(configRoot, domain)
  {
    LTrimSpec(domain, {'/'});
    assert ("/" + domain)[1..] == domain;
  }

  /** The template sees `append` and `element_name` unless the caller's
      variables override them, and every caller variable as given. */
  lemma TemplateVariablesSpec(fileExists: bool, element: Value, variables: map<string, Value>)
    ensures var v := TemplateVariables(fileExists, element, variables);
      && v.Keys == {"append", "element_name"} + variables.Keys
      && v["append"] == (if "append" in variables then variables["append"] else Flag(fileExists))
      && v["element_name"] == (if "element_name" in variables then variables["element_name"] else element)
      && forall k :: k in variables ==> v[k] == variables[k]
  {
  }

  /** Appending keeps what the file held, up to its trailing whitespace,
      as the start of the new contents, followed by one empty line and
      the rendered template; only whitespace is dropped. */
  lemma ContentsKeepsExisting(existing: string, rendered: string)
    ensures var c := Contents(Some(existing), rendered);
      var kept := RTrim(existing, TrimSpace);
      && |kept| <= |existing| && existing[..|kept|] == kept
      && (forall i :: |kept| <= i < |existing| ==> existing[i] in TrimSpace)
      && c[..|kept|] == kept
      && c[|kept|..|kept| + 2] == "\n\n"
      && c[|kept| + 2..] == LTrim(rendered, TrimSpace)
  {
    RTrimSpec(existing, TrimSpace);
  }

  /** A new file holds the rendered template, without leading whitespace,
      and nothing else. */
  lemma ContentsOfNewFile(rendered: string)
    ensures var c := Contents(None, rendered);
      && |c| <= |rendered| && c == rendered[|rendered| - |c|..]
      && (c == [] || c[0] !in TrimSpace)
      && forall i :: 0 <= i < |rendered| - |c| ==> rendered[i] in TrimSpace
  {
    LTrimSpec(rendered, TrimSpace);
  }

  /** Options accepted by the resolver fail only on a value of the wrong
      type or when there is no resources path; with string `source` and
      `domain`, array (or no) `variables` and a resources path, the target
      is written. */
  lemma GenerationSucceeds(
    resourcesPaths: seq<string>, generatorDir: string, files: map<string, string>, options: map<string, Value>,
    parseTemplate: (string, map<string, Value>) -> string, relativizePath: string -> string)
    requires ResolveOptions(options).Success?
    requires options["source"].Text? && options["domain"].Text?
    requires "variables" in options ==> options["variables"].Array?
    requires resourcesPaths != []
    ensures var g := Generation(resourcesPaths, generatorDir, files, options, parseTemplate, relativizePath);
      && g.Success?
      && g.value.target == Target(resourcesPaths[|resourcesPaths| - 1], options["domain"].s)
  {
  }

  /** Generating twice into a file that did not exist: the first run
      creates it, the second finds it, tells the template it is appending,
      and writes the first contents, an empty line and the second rendering
      to the same path. */
  lemma GenerateTwice(
    resourcesPaths: seq<string>, generatorDir: string, files: map<string, string>, options: map<string, Value>,
    parseTemplate: (string, map<string, Value>) -> string, relativizePath: string -> string)
    requires Generation(resourcesPaths, generatorDir, files, options, parseTemplate, relativizePath).Success?
    requires Generation(resourcesPaths, generatorDir, files, options, parseTemplate, relativizePath).value.target !in files
    ensures var first := Generation(resourcesPaths, generatorDir, files, options, parseTemplate, relativizePath).value;
      var second := Generation(resourcesPaths, generatorDir, files[first.target := first.contents], options, parseTemplate, relativizePath);
      var resolved := ResolveOptions(options).value;
      && first.comment == Comment(false, relativizePath(first.target))
      && second.Success? && second.value.target == first.target
      && second.value.comment == Comment(true, relativizePath(first.target))
      && second.value.contents == RTrim(first.contents, TrimSpace) + "\n\n" +
           LTrim(parseTemplate(SourcePath(generatorDir, resolved["source"].s),
                               TemplateVariables(true, resolved["element"], resolved["variables"].entries)), TrimSpace)
  {
  }
}
