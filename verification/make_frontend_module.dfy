/** `make:contao:frontend-module` (src/Maker/MakeFrontendModule.php): asks
    for a class name and the fragment makers' questions, then generates the
    controller class, its template, optionally an empty `tl_module` palette
    and optionally the translations of the module's name. */
module MakeFrontendModule {
  import opened PhpValues
  import opened PhpStrings
  import opened Console
  import opened Requests
  import FragmentMaker
  import DcaGeneration

  const CommandName := "make:contao:frontend-module"
  /** `getGlobalsRegistryKey()`. */
  const GlobalsRegistryKey := "FE_MOD"
  /** `getTemplatePrefix()`. */
  const TemplatePrefix := "mod"
  const ControllerNamespace := "Controller\\FrontendModule\\"

  /** The wording of the question and the skeleton files. */
  const ModuleText := "Choose a class name for your frontend module"
  const ControllerSkeleton := "frontend-module/FrontendModule.tpl.php"
  const TemplateSkeleton := "frontend-module/frontend_module.tpl.html5"
  const PaletteSkeleton := "frontend-module/tl_module.tpl.php"
  const TranslationSkeleton := "frontend-module/default.tpl.xlf"

  /** The exception of `createClassNameDetails(string $name, ...)` for a
      class name that is not a string. */
  const NameTypeError := "createClassNameDetails(): Argument #1 ($name) must be of type string"

  /** The class-name question; its default is a random class name chosen
      before the question is asked. */
  function ModuleQuestion(defaultName: string): (q: Question)
    ensures q.kind == Open && q.default == Text(defaultName) && !q.required && q.autocomplete == []
  {
    Question(Open, ModuleText, Text(defaultName), [], false)
  }

  function ModuleAsked(defaultName: string): Asked {
    Asked("module", ModuleQuestion(defaultName))
  }

  /** The categories suggested for frontend modules. */
  function Categories(globals: map<string, seq<string>>): seq<string> {
    FragmentMaker.ExistingCategories(globals, GlobalsRegistryKey)
  }

  /** The whole interview: the class name, then, unless that failed, the
      fragment makers' interview on the next replies. */
  function Interview(globals: map<string, seq<string>>, defaultName: string, replies: seq<Option<Value>>, pos: nat): Transcript {
    InterviewOf(ModuleAsked(defaultName), FragmentMaker.FirstQuestions(Categories(globals)), FragmentMaker.TranslationQuestions(), replies, pos)
  }

  /** `interact` over the given questions: stores the class name, then,
      unless that failed, runs the parent interview and reports whether it
      listed the categories. */
  method InteractWith(input: CommandInput, moduleAsked: Asked, first: seq<Asked>, translation: seq<Asked>, replies: seq<Option<Value>>, pos: nat)
    returns (error: Option<string>, listing: bool)
    requires |first| == 3 && first[2].argument == "addTranslation" && |translation| == 3
    modifies input
    ensures error == InterviewOf(moduleAsked, first, translation, replies, pos).error
    ensures input.arguments == Assign(old(input.arguments), InterviewOf(moduleAsked, first, translation, replies, pos).steps)
    ensures listing <==> Run([moduleAsked], replies, pos).error.None? && Run(first[..1], replies, pos + 1).error.None?
  {
    ghost var m0 := input.arguments;
    listing := false;
    error := AskInto(input, moduleAsked, replies, pos);
    if error.Some? {
      return;
    }
    error, listing := FragmentMaker.InteractWith(input, first, translation, replies, pos + 1);
    AssignAppend(m0, Run([moduleAsked], replies, pos).steps, FragmentMaker.InterviewOf(first, translation, replies, pos + 1).steps);
  }

  /** `interact`: stores the class name, then runs the parent interview.
      Neither the class-name question nor the palette question refuses an
      answer, so the `FE_MOD` categories are listed exactly when there
      were replies to both. */
  method Interact(input: CommandInput, globals: map<string, seq<string>>, defaultName: string, replies: seq<Option<Value>>, pos: nat)
    returns (error: Option<string>, listed: seq<string>)
    modifies input
    ensures error == Interview(globals, defaultName, replies, pos).error
    ensures input.arguments == Assign(old(input.arguments), Interview(globals, defaultName, replies, pos).steps)
    ensures listed == if pos + 1 < |replies| then Categories(globals) else []
  {
    var categories := FragmentMaker.ExistingCategories(globals, GlobalsRegistryKey);
    var listing;
    error, listing := InteractWith(input, ModuleAsked(defaultName), FragmentMaker.FirstQuestions(categories), FragmentMaker.TranslationQuestions(), replies, pos);
    listed := if listing then categories else [];
    assert FragmentMaker.FirstQuestions(categories)[..1] == [Asked("addEmptyDcaPalette", FragmentMaker.PaletteQuestion())];
  }

  /** The interview over the given questions: the class-name question,
      then the fragment makers' interview. */
  function InterviewOf(moduleAsked: Asked, first: seq<Asked>, translation: seq<Asked>, replies: seq<Option<Value>>, pos: nat): Transcript
    requires |first| == 3
  {
    var t := Run([moduleAsked], replies, pos);
    if t.error.Some? then t
    else
      var rest := FragmentMaker.InterviewOf(first, translation, replies, pos + 1);
      Transcript(t.steps + rest.steps, rest.error)
  }

  /** What a completed interview leaves in the input, for any questions
      stored under the fragment makers' argument names. */
  lemma InterviewOfOutcome(m: map<string, Value>, moduleAsked: Asked, first: seq<Asked>, translation: seq<Asked>, replies: seq<Option<Value>>, pos: nat)
    requires moduleAsked.argument == "module"
    requires |first| == 3 && |translation| == 3
    requires first[0].argument == "addEmptyDcaPalette" && first[1].argument == "category" && first[2].argument == "addTranslation"
    requires translation[0].argument == "language" && translation[1].argument == "translatedName" && translation[2].argument == "translatedDescription"
    requires first[1].question.required && translation[1].question.required && translation[2].question.required
    requires InterviewOf(moduleAsked, first, translation, replies, pos).error.None?
    ensures var a := Assign(m, InterviewOf(moduleAsked, first, translation, replies, pos).steps);
      && pos < |replies|
      && "module" in a && a["module"] == ReplyValue(moduleAsked.question, replies[pos])
      && "category" in a && !Blank(a["category"])
      && "addTranslation" in a
      && (Truthy(a["addTranslation"]) ==>
            "language" in a && "translatedName" in a && !Blank(a["translatedName"])
            && "translatedDescription" in a && !Blank(a["translatedDescription"]))
  {
    var t1 := Run([moduleAsked], replies, pos);
    var rest := FragmentMaker.InterviewOf(first, translation, replies, pos + 1);
    RunSpec([moduleAsked], replies, pos);
    assert t1.steps == [Assignment("module", ReplyValue(moduleAsked.question, replies[pos]))];
    var m1 := Assign(m, t1.steps);
    AssignSingle(m, t1.steps[0]);
    AssignAppend(m, t1.steps, rest.steps);
    FragmentMaker.InterviewOfOutcome(m1, first, translation, replies, pos + 1);
    FragmentMaker.InterviewOfFrame(m1, first, translation, replies, pos + 1, "module");
  }

  /** A completed interview leaves the class name answered, or the
      default, in `module`, together with everything the fragment
      interview promises. A class name that was typed as a string or left
      to its default is a string. */
  lemma InterviewOutcome(m: map<string, Value>, globals: map<string, seq<string>>, defaultName: string, replies: seq<Option<Value>>, pos: nat)
    requires Interview(globals, defaultName, replies, pos).error.None?
    ensures var a := Assign(m, Interview(globals, defaultName, replies, pos).steps);
      && pos < |replies|
      && "module" in a && a["module"] == ReplyValue(ModuleQuestion(defaultName), replies[pos])
      && (replies[pos].None? || replies[pos].value.Text? ==> a["module"].Text?)
      && "category" in a && !Blank(a["category"])
      && "addTranslation" in a
      && (Truthy(a["addTranslation"]) ==>
            "language" in a && "translatedName" in a && !Blank(a["translatedName"])
            && "translatedDescription" in a && !Blank(a["translatedDescription"]))
  {
    InterviewOfOutcome(m, ModuleAsked(defaultName), FragmentMaker.FirstQuestions(Categories(globals)), FragmentMaker.TranslationQuestions(), replies, pos);
  }

  /** `$input->getArgument($name)` on the arguments: null when unset. */
  function Arg(arguments: map<string, Value>, name: string): Value {
    if name in arguments then arguments[name] else Null
  }

  /** The controller class request. */
  function ClassRequestOf(details: ClassNameDetails, category: Value): (e: Effect)
    ensures e.Generate? && e.service == ClassGenerator && "fqcn" in e.options && e.options["fqcn"] == Text(details.fullName)
  {
    ClassRequest(ControllerSkeleton, details.fullName,
      map["class_name" := Text(details.shortName), "namespace" := Text(details.relativeNameWithoutSuffix), "category" := category])
  }

  /** The template request. */
  function TemplateRequest(target: string): (e: Effect)
    ensures e.Generate? && e.service == TemplateGenerator && "target" in e.options && e.options["target"] == Text(target)
  {
    Effect.Generate(TemplateGenerator, map["source" := Text(TemplateSkeleton), "target" := Text(target)])
  }

  /** The empty palette request: the DCA generator's resolver accepts it,
      with no extra template variables. */
  function PaletteRequest(element: string): (e: Effect)
    ensures e.Generate? && e.service == DcaGenerator
    ensures "domain" in e.options && e.options["domain"] == Text("tl_module")
    ensures "element" in e.options && e.options["element"] == Text(element)
  {
    Effect.Generate(DcaGenerator, map["domain" := Text("tl_module"), "source" := Text(PaletteSkeleton),
      "element" := Text(element), "io" := ConsoleStyle])
  }

  /** The DCA generator's resolver accepts the palette request as it is:
      it holds exactly the required options and gets no extra template
      variables. */
  lemma PaletteAccepted(element: string)
    ensures PaletteRequest(element).options.Keys == DcaGeneration.RequiredOptions
    ensures DcaGeneration.ResolveOptions(PaletteRequest(element).options).Success?
    ensures DcaGeneration.ResolveOptions(PaletteRequest(element).options).value["variables"] == Array(map[])
  {
  }

  /** The translation request. */
  function TranslationRequest(language: Value, element: string, translatedName: Value, translatedDescription: Value): (e: Effect)
    ensures e.Generate? && e.service == LanguageFileGenerator
    ensures e.options.Keys == {"domain", "source", "language", "io", "variables"} && e.options["language"] == language
    ensures e.options["variables"] == Array(map["element" := Text(element), "translatedName" := translatedName, "translatedDescription" := translatedDescription])
  {
    Effect.Generate(LanguageFileGenerator, map["domain" := Text("default"), "source" := Text(TranslationSkeleton),
      "language" := language, "io" := ConsoleStyle,
      "variables" := Array(map["element" := Text(element), "translatedName" := translatedName, "translatedDescription" := translatedDescription])])
  }

  /** The optional requests: the palette when asked for, then the
      translations when asked for, both for the same element. */
  function Optional(arguments: map<string, Value>, element: string): (requests: seq<Effect>)
    ensures forall i :: 0 <= i < |requests| ==> requests[i].Generate?
    ensures !Truthy(Arg(arguments, "addEmptyDcaPalette")) ==> forall e :: e in requests ==> e.service == LanguageFileGenerator
  {
    (if Truthy(Arg(arguments, "addEmptyDcaPalette")) then [PaletteRequest(element)] else [])
    + (if Truthy(Arg(arguments, "addTranslation")) then
         [TranslationRequest(Arg(arguments, "language"), element, Arg(arguments, "translatedName"), Arg(arguments, "translatedDescription"))]
       else [])
  }

  /** The DCA generator the maker calls, with the files it finds: its
      resources paths, its own directory and the template engine and path
      helper it uses. */
  datatype DcaContext = DcaContext(
    resourcesPaths: seq<string>, generatorDir: string, files: map<string, string>,
    parseTemplate: (string, map<string, Value>) -> string, relativizePath: string -> string)

  /** What the DCA generator does with the palette request for `element`. */
  function PaletteGeneration(dca: DcaContext, element: string): Result<DcaGeneration.Dump, DcaGeneration.GenerateError> {
    DcaGeneration.Generation(dca.resourcesPaths, dca.generatorDir, dca.files, PaletteRequest(element).options, dca.parseTemplate, dca.relativizePath)
  }

  /** The palette request always passes the resolver, so the DCA generator
      fails on it exactly when it has no resources path; otherwise it writes
      `<last resources path>/dca/tl_module.php`, creating it or appending
      to it. */
  lemma PaletteWritten(dca: DcaContext, element: string)
    ensures var g := PaletteGeneration(dca, element);
      && (g.Success? <==> dca.resourcesPaths != [])
      && (g.Failure? ==> g.error == DcaGeneration.TypeError("getConfigRoot"))
      && (g.Success? ==> g.value.target == dca.resourcesPaths[|dca.resourcesPaths| - 1] + "/dca/tl_module.php")
  {
    PaletteAccepted(element);
    if dca.resourcesPaths != [] {
      DcaGeneration.GenerationSucceeds(dca.resourcesPaths, dca.generatorDir, dca.files, PaletteRequest(element).options, dca.parseTemplate, dca.relativizePath);
      assert LTrim("tl_module", {'/'}) == "tl_module";
    }
  }

  /** What `generate` asks for once the class name is a string, given the
      class details, the outcome of `getTemplateName`, the element name and
      what the DCA generator does with the palette request: the class, then
      either the template error or the template; when the palette was asked
      for and the DCA generator throws, the command ends there; otherwise
      the optional requests follow and the changes are written. */
  function PlanFor(
    arguments: map<string, Value>, details: ClassNameDetails, template: Result<string, string>, element: string,
    palette: Result<DcaGeneration.Dump, DcaGeneration.GenerateError>): seq<Effect>
  {
    var classRequest := ClassRequestOf(details, Arg(arguments, "category"));
    match template
    case Failure(e) => [classRequest, Abort(e)]
    case Success(t) =>
      if Truthy(Arg(arguments, "addEmptyDcaPalette")) && palette.Failure? then
        [classRequest, TemplateRequest(t), PaletteRequest(element), Abort(DcaGeneration.Describe(palette.error))]
      else [classRequest, TemplateRequest(t)] + Optional(arguments, element) + [WriteChanges, SuccessMessage]
  }

  /** The files once the class name is a string: the DCA generator writes
      the palette straight away, when it was asked for, the template name
      was found and the generator succeeded. */
  function FilesFor(
    arguments: map<string, Value>, template: Result<string, string>,
    palette: Result<DcaGeneration.Dump, DcaGeneration.GenerateError>, files: map<string, string>): map<string, string>
  {
    if template.Success? && Truthy(Arg(arguments, "addEmptyDcaPalette")) && palette.Success? then
      files[palette.value.target := palette.value.contents]
    else files
  }

  /** What `generate` asks for, in order, given the input arguments, for
      a template prefix and a controller namespace. A class name without a
      namespace separator makes `getTemplateName` throw after the class was
      requested. */
  function PlanWith(
    arguments: map<string, Value>, createDetails: (Value, string) -> ClassNameDetails,
    underscore: string -> string, asLowerCamelCase: string -> string, prefix: string, namespace: string,
    dca: DcaContext): seq<Effect>
  {
    var moduleName := Arg(arguments, "module");
    if !moduleName.Text? then [Abort(NameTypeError)]
    else
      var details := createDetails(moduleName, namespace);
      var element := asLowerCamelCase(moduleName.s);
      PlanFor(arguments, details, FragmentMaker.TemplateName(prefix, underscore, details.fullName), element, PaletteGeneration(dca, element))
  }

  /** The files after `generate`, for a template prefix and a controller
      namespace. */
  function FilesWith(
    arguments: map<string, Value>, createDetails: (Value, string) -> ClassNameDetails,
    underscore: string -> string, asLowerCamelCase: string -> string, prefix: string, namespace: string,
    dca: DcaContext): map<string, string>
  {
    var moduleName := Arg(arguments, "module");
    if !moduleName.Text? then dca.files
    else
      var details := createDetails(moduleName, namespace);
      var element := asLowerCamelCase(moduleName.s);
      FilesFor(arguments, FragmentMaker.TemplateName(prefix, underscore, details.fullName), PaletteGeneration(dca, element), dca.files)
  }

  /** The plan of `generate`: templates prefixed `mod`, controllers in
      `Controller\FrontendModule\`. */
  function Plan(
    arguments: map<string, Value>, createDetails: (Value, string) -> ClassNameDetails,
    underscore: string -> string, asLowerCamelCase: string -> string, dca: DcaContext): seq<Effect>
  {
    PlanWith(arguments, createDetails, underscore, asLowerCamelCase, TemplatePrefix, ControllerNamespace, dca)
  }

  /** The optional generator calls of `generate` that are recorded as
      requests. */
  method RequestOptional(input: CommandInput, element: string) returns (optional: seq<Effect>)
    ensures optional == Optional(input.arguments, element)
  {
    var addTranslations := input.GetArgument("addTranslation");
    var addEmptyDcaPalette := input.GetArgument("addEmptyDcaPalette");
    optional := [];
    if Truthy(addEmptyDcaPalette) {
      optional := optional + [PaletteRequest(element)];
    }
    if Truthy(addTranslations) {
      var language := input.GetArgument("language");
      var translatedName := input.GetArgument("translatedName");
      var translatedDescription := input.GetArgument("translatedDescription");
      optional := optional + [TranslationRequest(language, element, translatedName, translatedDescription)];
    }
  }

  /** `generate` once the class name is a string: the palette is handed to
      the DCA generator itself, which writes it at once. */
  method GenerateFor(
    input: CommandInput, details: ClassNameDetails, template: Result<string, string>, element: string,
    dca: DcaGeneration.DcaGenerator, parseTemplate: (string, map<string, Value>) -> string, relativizePath: string -> string)
    returns (effects: seq<Effect>)
    modifies dca.filesystem
    ensures var g := DcaGeneration.Generation(dca.resourcesPaths, dca.generatorDir, old(dca.filesystem.files),
                                              PaletteRequest(element).options, parseTemplate, relativizePath);
      && effects == PlanFor(input.arguments, details, template, element, g)
      && dca.filesystem.files == FilesFor(input.arguments, template, g, old(dca.filesystem.files))
  {
    ghost var g := DcaGeneration.Generation(dca.resourcesPaths, dca.generatorDir, dca.filesystem.files,
                                            PaletteRequest(element).options, parseTemplate, relativizePath);
    var category := input.GetArgument("category");
    var classRequest := ClassRequestOf(details, category);
    if template.Failure? {
      return [classRequest, Abort(template.error)];
    }
    var addEmptyDcaPalette := input.GetArgument("addEmptyDcaPalette");
    if Truthy(addEmptyDcaPalette) {
      var request := PaletteRequest(element);
      var r, comment := dca.Generate(request.options, parseTemplate, relativizePath);
      if r.Failure? {
        assert g.Failure? && r.error == g.error;
        return [classRequest, TemplateRequest(template.value), request, Abort(DcaGeneration.Describe(r.error))];
      }
      assert g.Success?;
    }
    var optional := RequestOptional(input, element);
    effects := [classRequest, TemplateRequest(template.value)] + optional + [WriteChanges, SuccessMessage];
  }

  /** `generate` for a template prefix and a controller namespace: reads
      the arguments and hands each generator its options, in order. */
  method GenerateWith(input: CommandInput, createDetails: (Value, string) -> ClassNameDetails,
    underscore: string -> string, asLowerCamelCase: string -> string, prefix: string, namespace: string,
    dca: DcaGeneration.DcaGenerator, parseTemplate: (string, map<string, Value>) -> string, relativizePath: string -> string)
    returns (effects: seq<Effect>)
    modifies dca.filesystem
    ensures var context := DcaContext(dca.resourcesPaths, dca.generatorDir, old(dca.filesystem.files), parseTemplate, relativizePath);
      && effects == PlanWith(input.arguments, createDetails, underscore, asLowerCamelCase, prefix, namespace, context)
      && dca.filesystem.files == FilesWith(input.arguments, createDetails, underscore, asLowerCamelCase, prefix, namespace, context)
  {
    var name := input.GetArgument("module");
    if !name.Text? {
      return [Abort(NameTypeError)];
    }
    var elementDetails := createDetails(name, namespace);
    var template := FragmentMaker.TemplateName(prefix, underscore, elementDetails.fullName);
    effects := GenerateFor(input, elementDetails, template, asLowerCamelCase(name.s), dca, parseTemplate, relativizePath);
  }

  /** `generate`, with the `mod` template prefix and the frontend module
      controller namespace. */
  method Generate(input: CommandInput, createDetails: (Value, string) -> ClassNameDetails,
    underscore: string -> string, asLowerCamelCase: string -> string,
    dca: DcaGeneration.DcaGenerator, parseTemplate: (string, map<string, Value>) -> string, relativizePath: string -> string)
    returns (effects: seq<Effect>)
    modifies dca.filesystem
    ensures var context := DcaContext(dca.resourcesPaths, dca.generatorDir, old(dca.filesystem.files), parseTemplate, relativizePath);
      && effects == Plan(input.arguments, createDetails, underscore, asLowerCamelCase, context)
      && dca.filesystem.files == FilesWith(input.arguments, createDetails, underscore, asLowerCamelCase, TemplatePrefix, ControllerNamespace, context)
  {
    effects := GenerateWith(input, createDetails, underscore, asLowerCamelCase, "mod", "Controller\\FrontendModule\\", dca, parseTemplate, relativizePath);
  }

  /** Whether a request goes to the DCA generator. */
  predicate ToDcaGenerator(e: Effect) {
    e.Generate? && e.service == DcaGenerator
  }

  /** Once the class name is a string: the class is requested first; the
      changes are written exactly when a template name was found and the
      DCA generator, if it was asked for the palette, succeeded; they are
      then written once, at the end, followed by the success message. The
      palette follows the template when asked for, and nothing goes to the
      DCA generator otherwise. A failing DCA generator ends the command
      right after the palette request. */
  lemma PlanForShape(
    arguments: map<string, Value>, details: ClassNameDetails, template: Result<string, string>, element: string,
    palette: Result<DcaGeneration.Dump, DcaGeneration.GenerateError>)
    ensures var effects := PlanFor(arguments, details, template, element, palette);
      && |effects| >= 2
      && effects[0] == ClassRequestOf(details, Arg(arguments, "category"))
      && (Writes(effects) <==> template.Success? && (!Truthy(Arg(arguments, "addEmptyDcaPalette")) || palette.Success?))
      && (Writes(effects) ==> |effects| >= 4 && effects[|effects| - 2..] == [WriteChanges, SuccessMessage])
      && (template.Success? && Truthy(Arg(arguments, "addEmptyDcaPalette")) ==> effects[2] == PaletteRequest(element))
      && (template.Success? && Truthy(Arg(arguments, "addEmptyDcaPalette")) && palette.Failure? ==>
            |effects| == 4 && effects[3] == Abort(DcaGeneration.Describe(palette.error)))
      && (!Truthy(Arg(arguments, "addEmptyDcaPalette")) ==> forall i :: 0 <= i < |effects| ==> !ToDcaGenerator(effects[i]))
  {
    var effects := PlanFor(arguments, details, template, element, palette);
    if template.Success? && !(Truthy(Arg(arguments, "addEmptyDcaPalette")) && palette.Failure?) {
      var optional := Optional(arguments, element);
      var head := [ClassRequestOf(details, Arg(arguments, "category")), TemplateRequest(template.value)];
      var tail := [WriteChanges, SuccessMessage];
      assert effects == head + optional + tail;
      assert WriteChanges !in optional by {
        assert forall i :: 0 <= i < |optional| ==> optional[i] != WriteChanges;
      }
      assert WriteChanges in effects by {
        assert effects[|effects| - 2] == WriteChanges;
      }
      if !Truthy(Arg(arguments, "addEmptyDcaPalette")) {
        forall i | 0 <= i < |effects| ensures !ToDcaGenerator(effects[i]) {
          if i < 2 {
            assert effects[i] == head[i];
          } else if i < 2 + |optional| {
            assert effects[i] == optional[i - 2];
            assert optional[i - 2] in optional;
          } else {
            assert effects[i] == tail[i - 2 - |optional|];
          }
        }
      }
    }
  }

  /** The changes are written exactly when the class name is a string, the
      generated class has a namespace and, when the palette was asked for,
      the DCA generator has a resources path; they are then written once,
      at the end, followed by the success message. When the class name is
      a string, the class is always requested first. */
  lemma PlanShape(
    arguments: map<string, Value>, createDetails: (Value, string) -> ClassNameDetails,
    underscore: string -> string, asLowerCamelCase: string -> string, prefix: string, namespace: string,
    dca: DcaContext)
    ensures var effects := PlanWith(arguments, createDetails, underscore, asLowerCamelCase, prefix, namespace, dca);
      && effects != []
      && (Writes(effects) <==>
            && Arg(arguments, "module").Text?
            && '\\' in createDetails(Arg(arguments, "module"), namespace).fullName
            && (!Truthy(Arg(arguments, "addEmptyDcaPalette")) || dca.resourcesPaths != []))
      && (Writes(effects) ==> |effects| >= 4 && effects[|effects| - 2..] == [WriteChanges, SuccessMessage])
      && (Arg(arguments, "module").Text? ==>
            effects[0] == ClassRequestOf(createDetails(Arg(arguments, "module"), namespace), Arg(arguments, "category")))
  {
    if Arg(arguments, "module").Text? {
      var details := createDetails(Arg(arguments, "module"), namespace);
      var element := asLowerCamelCase(Arg(arguments, "module").s);
      PaletteWritten(dca, element);
      PlanForShape(arguments, details, FragmentMaker.TemplateName(prefix, underscore, details.fullName), element, PaletteGeneration(dca, element));
    }
  }

  /** When the palette question was answered with yes and a template name
      was found, the palette comes right after the template, for the
      element named after the class. */
  lemma PaletteRequested(
    arguments: map<string, Value>, createDetails: (Value, string) -> ClassNameDetails,
    underscore: string -> string, asLowerCamelCase: string -> string, prefix: string, namespace: string,
    dca: DcaContext)
    requires Arg(arguments, "module").Text?
    requires '\\' in createDetails(Arg(arguments, "module"), namespace).fullName
    requires Truthy(Arg(arguments, "addEmptyDcaPalette"))
    ensures PlanWith(arguments, createDetails, underscore, asLowerCamelCase, prefix, namespace, dca)[2] ==
      PaletteRequest(asLowerCamelCase(Arg(arguments, "module").s))
  {
    var details := createDetails(Arg(arguments, "module"), namespace);
    var element := asLowerCamelCase(Arg(arguments, "module").s);
    PlanForShape(arguments, details, FragmentMaker.TemplateName(prefix, underscore, details.fullName), element, PaletteGeneration(dca, element));
  }

  /** Without a yes to the palette question nothing is asked of the DCA
      generator and no file is written. */
  lemma NoPaletteUnlessAsked(
    arguments: map<string, Value>, createDetails: (Value, string) -> ClassNameDetails,
    underscore: string -> string, asLowerCamelCase: string -> string, prefix: string, namespace: string,
    dca: DcaContext)
    requires !Truthy(Arg(arguments, "addEmptyDcaPalette"))
    ensures var effects := PlanWith(arguments, createDetails, underscore, asLowerCamelCase, prefix, namespace, dca);
      forall i :: 0 <= i < |effects| ==> !ToDcaGenerator(effects[i])
    ensures FilesWith(arguments, createDetails, underscore, asLowerCamelCase, prefix, namespace, dca) == dca.files
  {
    if Arg(arguments, "module").Text? {
      var details := createDetails(Arg(arguments, "module"), namespace);
      var element := asLowerCamelCase(Arg(arguments, "module").s);
      PlanForShape(arguments, details, FragmentMaker.TemplateName(prefix, underscore, details.fullName), element, PaletteGeneration(dca, element));
    }
  }

  /** `generate` changes at most one file, `tl_module.php` in the `dca`
      directory of the last resources path, and none without a resources
      path. */
  lemma OnlyPaletteFile(
    arguments: map<string, Value>, createDetails: (Value, string) -> ClassNameDetails,
    underscore: string -> string, asLowerCamelCase: string -> string, prefix: string, namespace: string,
    dca: DcaContext)
    ensures var after := FilesWith(arguments, createDetails, underscore, asLowerCamelCase, prefix, namespace, dca);
      && (dca.resourcesPaths == [] ==> after == dca.files)
      && (dca.resourcesPaths != [] ==>
            var target := dca.resourcesPaths[|dca.resourcesPaths| - 1] + "/dca/tl_module.php";
            && after.Keys <= dca.files.Keys + {target}
            && forall q :: q in dca.files && q != target ==> after[q] == dca.files[q])
  {
    if Arg(arguments, "module").Text? {
      PaletteWritten(dca, asLowerCamelCase(Arg(arguments, "module").s));
    }
  }

  /** With both the palette and the translations, the DCA generator and the
      language-file generator are given the same element name. */
  lemma ElementNamesAgree(
    arguments: map<string, Value>, details: ClassNameDetails, template: Result<string, string>, element: string,
    palette: Result<DcaGeneration.Dump, DcaGeneration.GenerateError>)
    requires template.Success? && palette.Success?
    requires Truthy(Arg(arguments, "addEmptyDcaPalette")) && Truthy(Arg(arguments, "addTranslation"))
    ensures var effects := PlanFor(arguments, details, template, element, palette);
      && |effects| == 6
      && effects[2].options["element"] == effects[3].options["variables"].entries["element"] == Text(element)
  {
  }

  /** A controller class `Ns\XyzController` gets the template
      `<prefix>_<underscore(Xyz)>.html5`, `mod_…` for `generate`. */
  lemma TemplateOfController(
    arguments: map<string, Value>, createDetails: (Value, string) -> ClassNameDetails,
    underscore: string -> string, asLowerCamelCase: string -> string, prefix: string, namespace: string,
    dca: DcaContext, classNamespace: string, base: string)
    requires Arg(arguments, "module").Text?
    requires createDetails(Arg(arguments, "module"), namespace).fullName == classNamespace + "\\" + base + "Controller"
    requires '\\' !in base
    ensures PlanWith(arguments, createDetails, underscore, asLowerCamelCase, prefix, namespace, dca)[1] ==
      TemplateRequest(prefix + "_" + underscore(base) + ".html5")
  {
    FragmentMaker.TemplateNameOfController(prefix, underscore, classNamespace, base);
  }
}
