# contao-maker-bundle, modelled in Dafny

This project models the makers of the Contao maker bundle. They are Symfony
MakerBundle commands that generate code for a Contao project after asking a
few console questions.

- `make:contao:hook` (module `MakeHook`) offers the hooks of a literal
  registry. It generates an event listener class. The class's `on<Hook>`
  method has the hook's signature.
- `make:contao:dca-callback` (module `MakeDcaCallback`) asks for a table
  from the bundles' DCA files and for a callback target. It generates a
  listener whose `onCallback` method has the target's signature.
- `make:contao:frontend-module` (module `MakeFrontendModule`) asks for a
  class name and then for the questions every fragment maker shares (module
  `FragmentMaker`):
  - whether to add an empty DCA palette;
  - a category;
  - whether to add translations, and if so the language, a translated name
    and a translated description.

  It generates the controller class and its template. It can also generate
  an empty `tl_module` palette and a language file.
- The DCA generator (module `DcaGeneration`) resolves its options and
  renders a skeleton. It creates or appends to
  `<last resources path>/dca/<domain>.php` and reports which of the two it
  did.
- Method definitions (module `MethodDefinitions`) render a parameter
  registry entry as a PHP method declaration. Callback definitions (module
  `CallbackDefinitions`) wrap a method definition together with its
  dependencies.

Supporting modules:

- `PhpValues`: PHP values and truthiness.
- `PhpStrings`: `trim`, `str_replace`, `ucfirst`, `strrchr`, `substr`,
  `implode` and `array_unique`, with their specifications.
- `Registries`: the hook and callback registries.
- `Requests`: what a maker asks of the class, template, DCA and language-file
  generators and of the console, recorded as a sequence of effects.
- `Console`: the command input and asking questions one reply at a time.

A maker's `interact` is a method on a `CommandInput` object whose
`arguments` map it updates. Its `generate` is a method that returns the
requests it makes, in order. The frontend module's `generate` also calls
the DCA generator object itself, because that generator writes its file at
once rather than at `writeChanges`. Each method is proved against a specification
function of the input (`Run`, `InterviewOf`, `PlanWith`, `Signature`,
`Generation`). The lemmas about those functions state what the makers
promise. The DCA generator's filesystem is a class whose `files` map
`DumpFile` updates.

## Model

| member | source | states |
|---|---|---|
| MethodDefinitions.GetMethodSignature | src/Util/MethodDefinition.php:36-58 | the loop over the parameters builds exactly the declaration `Signature` defines |
| MethodDefinitions.ReturnSuffix | src/Util/MethodDefinition.php:40 | the suffix is `: type` when the return type is truthy and empty otherwise |
| MethodDefinitions.ReturnSuffixCases | src/Util/MethodDefinition.php:40 | no suffix exactly for null, '' and '0'; `void` gives `: void` |
| MethodDefinitions.RenderParams | src/Util/MethodDefinition.php:44-55 | one rendered entry per parameter, in registry order |
| MethodDefinitions.TrimEntry | src/Util/MethodDefinition.php:51-52 | trimming `type + " " + rest` leaves it unchanged, or leaves `rest` alone when the type is empty |
| MethodDefinitions.RenderParamShape | src/Util/MethodDefinition.php:45-52 | an entry is `type &$name` or `type $name`, with no type for a null or empty type; `&` appears exactly for keys starting with `&`; the name is the key with every `&` removed |
| MethodDefinitions.DefaultIgnored | src/Util/MethodDefinition.php:48 | a `[type, default]` pair renders exactly like the bare type |
| MethodDefinitions.EmptyParameterList | src/Util/MethodDefinition.php:57 | with no parameters the declaration is `public function name()` plus the return suffix |
| MethodDefinitions.SignatureEntries | src/Util/MethodDefinition.php:36-58 | the declaration is `public function name(list)` plus the suffix, and splitting the list at `, ` gives back the rendered entries |
| MethodDefinitions.InvokeVoidSignature | src/Util/MethodDefinition.php:36-58 | `__invoke` with return type `void` and no parameters renders as `public function __invoke(): void` |
| MethodDefinitions.InvokeUntypedSignature | src/Util/MethodDefinition.php:36-58 | with no return type there is no suffix: `public function __invoke()` |
| CallbackDefinitions.NewCallbackDefinition | src/Util/CallbackDefinition.php:20-24 | the dependencies default to empty; the method definition is kept |
| CallbackDefinitions.GettersReturnArguments | src/Util/CallbackDefinition.php:26-34 | the getters return what the constructor was given, and the wrapped definition renders unchanged |
| PhpStrings.LTrimSpec | src/Generator/DcaGenerator.php:61 | `ltrim` removes a prefix made only of the trimmed characters, and the result does not start with one |
| PhpStrings.RTrimSpec | src/Generator/DcaGenerator.php:64 | `rtrim` removes a suffix made only of the trimmed characters, and the result does not end with one |
| PhpStrings.TrimSpec | src/Util/MethodDefinition.php:52 | `trim` gives a slice of its input with no whitespace at either end |
| PhpStrings.RemoveCharSpec | src/Util/MethodDefinition.php:47 | `str_replace('&', '', s)` holds every character of `s` except `&`, and no `&` |
| PhpStrings.RemovePhpSuffix | src/Maker/MakeDcaCallback.php:133 | removing `.php` from `t.php`, where `t` holds no `.php`, gives `t` |
| PhpStrings.Ucfirst | src/Maker/MakeHook.php:80 | only the first character changes, and only from a lower-case to an upper-case ASCII letter |
| PhpStrings.UcfirstLowerInjective | src/Maker/MakeHook.php:80 | on strings that start with a lower-case letter, `ucfirst` is injective |
| PhpStrings.SplitImplode | src/Util/MethodDefinition.php:57 | splitting `implode(', ', xs)` gives back `xs` when no entry is empty or holds a comma |
| PhpStrings.Strrchr | src/Maker/AbstractFragmentMaker.php:121 | false exactly when the character is absent; otherwise the suffix from its last occurrence |
| PhpStrings.SubstrLastEndsWith | src/Maker/AbstractFragmentMaker.php:123 | `substr(s, -n)` equals an `n`-character suffix exactly when `s` ends with it |
| PhpStrings.ArrayUnique | src/Maker/MakeDcaCallback.php:138 | `array_unique` keeps exactly the same values, each once |
| PhpStrings.ArrayUniqueOrder | src/Maker/MakeDcaCallback.php:138 | the kept values are ordered by their first occurrence |
| PhpStrings.ArrayUniqueDistinct | src/Maker/MakeDcaCallback.php:138 | a list without duplicates is returned unchanged |
| Registries.Keys | src/Maker/MakeHook.php:59 | `array_keys` lists every entry's key, in order |
| Registries.Lookup | src/Maker/MakeHook.php:74-83 | a key is found exactly when it is among the keys, and then it is stored with the definition returned |
| Registries.LookupAt | src/Maker/MakeHook.php:83 | a key that does not occur earlier in the registry is looked up to the definition at its position |
| Registries.CreateDefinitionHook | src/Maker/MakeHook.php:164-169 | `createDefinition` returns `?array` and takes four parameters, the last one by reference |
| Registries.GenerateXmlFilesHook | src/Maker/MakeHook.php:217 | `generateXmlFiles` takes no parameters and returns `void` |
| Registries.OnSubmitTarget | src/Maker/MakeDcaCallback.php:153-156 | `config.onsubmit` takes no parameters and returns `void` |
| Requests.ClassRequest | src/Maker/MakeHook.php:88-96 | a class-generator request with exactly `source`, `fqcn` and `variables` |
| Console.RequiredValidator | src/Maker/AbstractFragmentMaker.php:55-61 | refuses exactly null and '', with the blank-value message; passes anything else through |
| Console.AnswerFor | src/Maker/AbstractFragmentMaker.php:67-86 | the answer is the typed reply trimmed, or the default for an empty reply, and a confirmation answer is read as yes or no; a required question refuses a blank answer and accepts anything else |
| Console.OpenReply | src/Maker/AbstractFragmentMaker.php:78-82 | an open question's answer is the trimmed reply, or the default when the reply is empty or only whitespace |
| Console.ConfirmationReply | src/Maker/AbstractFragmentMaker.php:67-68 | a confirmation question defaulting to yes gives true for an empty reply or one starting with `y` or `Y`, false for any other text, and always a boolean |
| Console.Run | src/Maker/AbstractFragmentMaker.php:65-108 | a run stops at its first refused answer: it stores one answer per question exactly when nothing was refused |
| Console.RunSpec | src/Maker/AbstractFragmentMaker.php:65-108 | each stored answer goes to its question's argument, is what its reply stands for, and is not blank for a required question |
| Console.RunAppend | src/Maker/AbstractFragmentMaker.php:89-108 | asking two lists one after the other is asking their concatenation |
| Console.RunPrefixError | src/Maker/AbstractFragmentMaker.php:65-108 | a refusal within a prefix ends the whole run the same way |
| Console.AssignAppend | src/Maker/AbstractFragmentMaker.php:68-106 | storing two runs in turn is storing their concatenation |
| Console.AssignSingle | src/Maker/AbstractFragmentMaker.php:68 | one `setArgument` sets one argument |
| Console.AssignDistinct | src/Maker/AbstractFragmentMaker.php:65-108 | with distinct argument names each argument holds its own answer, and every other argument is unchanged |
| Console.AssignOthers | src/Maker/AbstractFragmentMaker.php:65-108 | an argument no step names keeps its value, or stays absent |
| Console.CommandInput.GetArgument | src/Maker/MakeFrontendModule.php:55-59 | the stored value, or null for an argument never set |
| Console.CommandInput.SetArgument | src/Maker/AbstractFragmentMaker.php:68 | sets one argument and leaves every other one alone |
| Console.AskInto | src/Maker/AbstractFragmentMaker.php:68 | asking one question updates the input exactly as the one-question run says |
| Console.AskNext | src/Maker/AbstractFragmentMaker.php:82-87 | asking one more question extends the run without redoing it |
| Console.AskEach | src/Maker/AbstractFragmentMaker.php:100-107 | the `foreach` over questions updates the input exactly as the run of the list says |
| MakeHook.HookQuestion | src/Maker/MakeHook.php:53-59 | an open, optional question whose suggestions are exactly the registry's hooks |
| MakeHook.Interact | src/Maker/MakeHook.php:49-62 | stores the answer to the hook question in `hook` |
| MakeHook.MethodName | src/Maker/MakeHook.php:80 | `on` followed by the hook with its first letter capitalised |
| MakeHook.MethodNameInjective | src/Maker/MakeHook.php:80 | hooks that start with a lower-case letter get distinct method names |
| MakeHook.GenerateWith | src/Maker/MakeHook.php:68-101 | an unknown hook only reports the error; a known one requests one listener class with the hook's signature for `on<Hook>`, then writes and reports success; the changes are written exactly for a registry key |
| MakeHook.Generate | src/Maker/MakeHook.php:68-101 | the same, over the registry of `getAvailableHooks` |
| MakeHook.HookVariables | src/Maker/MakeHook.php:91-95 | the listener template is given exactly `class_name`, `hook` and `signature` |
| MakeHook.ListenerSignature | src/Maker/MakeHook.php:80-84 | a listener is declared `public function on<Hook>(list)` plus the return suffix, with one rendered entry per registry parameter |
| MakeHook.GenerateXmlFilesSignature | src/Maker/MakeHook.php:217 | the `generateXmlFiles` listener is `public function onGenerateXmlFiles(): void` |
| MakeDcaCallback.StripPhp | src/Maker/MakeDcaCallback.php:132-134 | every `.php` is removed from each relative path name, position by position |
| MakeDcaCallback.Tables | src/Maker/MakeDcaCallback.php:126-139 | the tables are exactly the stripped path names, each once |
| MakeDcaCallback.TablesOfDcaFiles | src/Maker/MakeDcaCallback.php:126-139 | for files `<table>.php` the tables are the table names in order of first occurrence, and all of them when they are distinct |
| MakeDcaCallback.TableQuestion | src/Maker/MakeDcaCallback.php:61-69 | an open, optional question suggesting the tables |
| MakeDcaCallback.TargetQuestion | src/Maker/MakeDcaCallback.php:72-80 | an open, optional question whose suggestions are exactly the registry's targets |
| MakeDcaCallback.Interact | src/Maker/MakeDcaCallback.php:56-81 | stores the table answer, then the target answer |
| MakeDcaCallback.CallbackVariables | src/Maker/MakeDcaCallback.php:113-118 | the listener template is given exactly `class_name`, `target`, `table` and `signature` |
| MakeDcaCallback.GenerateWith | src/Maker/MakeDcaCallback.php:87-124 | an unknown target only reports the error; a known one requests one listener class with the target's signature for `onCallback`, then writes; the changes are written exactly for a registry key |
| MakeDcaCallback.Generate | src/Maker/MakeDcaCallback.php:87-124 | the same, over the registry of `getTargets` |
| MakeDcaCallback.OnSubmitCallbackSignature | src/Maker/MakeDcaCallback.php:102-106 | the `config.onsubmit` listener is `public function onCallback(): void` |
| FragmentMaker.CategoryQuestion | src/Maker/AbstractFragmentMaker.php:78-80 | a required question with no default, suggesting the existing categories |
| FragmentMaker.FieldQuestion | src/Maker/AbstractFragmentMaker.php:103-104 | the translated fields are required questions with no default |
| FragmentMaker.FirstQuestions | src/Maker/AbstractFragmentMaker.php:65-87 | three questions: palette, category, translation |
| FragmentMaker.TranslationQuestions | src/Maker/AbstractFragmentMaker.php:96-107 | three questions: language, translated name, translated description |
| FragmentMaker.AskTranslation | src/Maker/AbstractFragmentMaker.php:96-107 | the translation questions update the input exactly as their run says |
| FragmentMaker.InteractWith | src/Maker/AbstractFragmentMaker.php:53-109 | the first three questions, then the translation questions only when the stored translation answer is truthy |
| FragmentMaker.Interact | src/Maker/AbstractFragmentMaker.php:53-109 | the interview with the fragment questions; the existing categories are listed exactly when the palette question got a reply, and nothing is listed otherwise |
| FragmentMaker.AnsweredNoSkipsTranslation | src/Maker/AbstractFragmentMaker.php:84-89 | a reply starting with `n` to the translation question stores false and ends the interview after three answers, so no translation question is asked |
| FragmentMaker.InterviewOfOutcome | src/Maker/AbstractFragmentMaker.php:53-109 | a completed interview stores the palette, a non-blank category and the translation answer, and with a truthy translation answer a language and non-blank translated name and description |
| FragmentMaker.InterviewOfSkipsTranslation | src/Maker/AbstractFragmentMaker.php:89 | with a falsy translation answer the interview stops after three questions and no other argument changes |
| FragmentMaker.InterviewOfFrame | src/Maker/AbstractFragmentMaker.php:53-109 | an argument the interview does not ask about keeps its value |
| FragmentMaker.InterviewOutcome | src/Maker/AbstractFragmentMaker.php:53-109 | the outcome of the shared interview, including that without translations the language and translated fields are left as they were |
| FragmentMaker.InterviewOfAnswers | src/Maker/AbstractFragmentMaker.php:53-109 | each stored answer is what its reply stands for, the questions taken in order across both parts |
| FragmentMaker.InterviewDefaults | src/Maker/AbstractFragmentMaker.php:67-97 | an empty reply means yes to the palette and translations, and `en` as the language |
| FragmentMaker.TemplateName | src/Maker/AbstractFragmentMaker.php:119-128 | fails exactly for a class name without a backslash |
| FragmentMaker.TemplateNameOfController | src/Maker/AbstractFragmentMaker.php:119-128 | `Ns\XyzController` gets `<prefix>_<underscore(Xyz)>.html5` |
| FragmentMaker.TemplateNameOfOtherClass | src/Maker/AbstractFragmentMaker.php:119-128 | `Ns\Xyz`, not ending in `Controller`, gets `<prefix>_<underscore(Xyz)>.html5` |
| FragmentMaker.ExistingCategories | src/Maker/AbstractFragmentMaker.php:130-135 | the keys registered under the maker's globals key, or none |
| MakeFrontendModule.ModuleQuestion | src/Maker/MakeFrontendModule.php:44-47 | an open, optional question whose default is the random class name |
| MakeFrontendModule.InteractWith | src/Maker/MakeFrontendModule.php:42-51 | the class name, then the shared interview only when the class-name answer was accepted |
| MakeFrontendModule.Interact | src/Maker/MakeFrontendModule.php:42-51 | the same with the frontend module's questions; the `FE_MOD` categories are listed exactly when the class name and the palette question both got a reply |
| MakeFrontendModule.InterviewOfOutcome | src/Maker/MakeFrontendModule.php:42-51 | a completed interview stores the class-name answer in `module`, together with the shared interview's outcome |
| MakeFrontendModule.InterviewOutcome | src/Maker/MakeFrontendModule.php:42-51 | the same for the frontend module's questions; a typed or defaulted class name is a string |
| MakeFrontendModule.ClassRequestOf | src/Maker/MakeFrontendModule.php:63-71 | a class-generator request for the class's full name |
| MakeFrontendModule.TemplateRequest | src/Maker/MakeFrontendModule.php:73-76 | a template-generator request for the given target |
| MakeFrontendModule.PaletteRequest | src/Maker/MakeFrontendModule.php:78-85 | a DCA-generator request for the `tl_module` domain and the element |
| MakeFrontendModule.PaletteAccepted | src/Maker/MakeFrontendModule.php:78-85 | the palette request gives exactly the generator's required options, so it resolves, with empty variables |
| MakeFrontendModule.TranslationRequest | src/Maker/MakeFrontendModule.php:87-103 | a language-file request for the language, passing the element and the translated fields |
| MakeFrontendModule.Optional | src/Maker/MakeFrontendModule.php:78-103 | only generator requests; without the palette, only language-file requests |
| MakeFrontendModule.RequestOptional | src/Maker/MakeFrontendModule.php:78-103 | reads the arguments and makes exactly the optional requests |
| MakeFrontendModule.GenerateFor | src/Maker/MakeFrontendModule.php:55-108 | once the class name is a string, makes exactly the planned requests, with the DCA generator's outcome on the palette, and the files change exactly as that generator writes them |
| MakeFrontendModule.GenerateWith | src/Maker/MakeFrontendModule.php:53-108 | makes exactly the requests of the plan for a template prefix and namespace, and changes the files as planned |
| MakeFrontendModule.Generate | src/Maker/MakeFrontendModule.php:53-108 | makes exactly the requests of the plan with `mod` and `Controller\FrontendModule\`, and changes the files as planned |
| MakeFrontendModule.PlanForShape | src/Maker/MakeFrontendModule.php:63-107 | the class comes first; the changes are written exactly when a template name was found and the DCA generator, if asked for the palette, succeeded, last, before the success message; a failing DCA generator ends the command right after the palette request; without the palette nothing goes to the DCA generator |
| MakeFrontendModule.PlanShape | src/Maker/MakeFrontendModule.php:53-108 | the changes are written exactly when the class name is a string whose class has a namespace and, when the palette was asked for, the DCA generator has a resources path |
| MakeFrontendModule.PaletteRequested | src/Maker/MakeFrontendModule.php:78-85 | when a template name was found and the palette was asked for, the palette request for the class's element follows the template |
| MakeFrontendModule.NoPaletteUnlessAsked | src/Maker/MakeFrontendModule.php:78 | without a yes to the palette question nothing is asked of the DCA generator and no file changes |
| MakeFrontendModule.OnlyPaletteFile | src/Maker/MakeFrontendModule.php:78-85 | `generate` changes at most `<last resources path>/dca/tl_module.php`, and no file without a resources path |
| MakeFrontendModule.ElementNamesAgree | src/Maker/MakeFrontendModule.php:82-98 | the palette and the translations are given the same element name |
| MakeFrontendModule.TemplateOfController | src/Maker/MakeFrontendModule.php:73-76 | a controller `Ns\XyzController` gets the template `<prefix>_<underscore(Xyz)>.html5` |
| MakeFrontendModule.PaletteWritten | src/Generator/DcaGenerator.php:43-73 | the DCA generator fails on the palette request exactly when it has no resources path, with a type error in `getConfigRoot`, and otherwise writes `<last resources path>/dca/tl_module.php` |
| DcaGeneration.ResolveOptions | src/Generator/DcaGenerator.php:75-91 | succeeds exactly for known options that include the required ones with a console-style `io`; reports unknown, then missing options; keeps the given values and defaults `variables` to empty |
| DcaGeneration.ConfigRoot | src/Generator/DcaGenerator.php:102-105 | the last resources path, or nothing when there is none |
| DcaGeneration.Filesystem.Exists | src/Generator/DcaGenerator.php:53 | true exactly for a file present |
| DcaGeneration.Filesystem.GetContents | src/Generator/DcaGenerator.php:64 | the stored contents |
| DcaGeneration.Filesystem.DumpFile | src/Generator/DcaGenerator.php:67 | replaces one file and leaves every other one alone |
| DcaGeneration.DcaGenerator.Generate | src/Generator/DcaGenerator.php:43-73 | on failure nothing is written; on success exactly the target file changes, to the specified contents, and the target and its comment are returned |
| DcaGeneration.SourcePathShape | src/Generator/DcaGenerator.php:107-110 | the source is `<generator dir>/../Resources/skeleton/<path without leading slashes>`; a leading slash in the path makes no difference |
| DcaGeneration.TargetShape | src/Generator/DcaGenerator.php:51 | the target is `<root>/dca/<domain without leading slashes>.php`; a leading slash in the domain makes no difference |
| DcaGeneration.TemplateVariablesSpec | src/Generator/DcaGenerator.php:55-58 | `append` and `element_name` unless overridden, plus every caller variable as given |
| DcaGeneration.ContentsKeepsExisting | src/Generator/DcaGenerator.php:60-65 | appending keeps the existing text up to its trailing whitespace, then an empty line, then the rendered template |
| DcaGeneration.ContentsOfNewFile | src/Generator/DcaGenerator.php:60-61 | a new file holds the rendered template without leading whitespace |
| DcaGeneration.GenerationSucceeds | src/Generator/DcaGenerator.php:43-73 | resolved options with string `source` and `domain` and array variables succeed whenever there is a resources path |
| DcaGeneration.GenerateTwice | src/Generator/DcaGenerator.php:43-73 | a second run finds the file the first created, reports `updated`, and appends to it |

## Left out

- Console I/O is given as a sequence of replies. A refused answer ends the interview, where Symfony would ask again. The `writeln` output and the rendering of the `listing` are not modelled, nor the question wording beyond constants. Whether the categories are listed is modelled.
- Of what the console library does to a typed reply, only trimming, the default for an empty reply and the yes/no reading of confirmation replies are modelled. Autocompletion and hidden input are not.
- Foreign helpers are function parameters whose behaviour is not modelled:
  - `Generator::createClassNameDetails`;
  - `Container::underscore`;
  - `Str::asLowerCamelCase`;
  - `FileManager::parseTemplate` and `relativizePath`.
- The random default class name (`Str::asClassName(Str::getRandomTerm())`) is a parameter.
- The class, template and language-file generators (`src/Generator/TemplateGenerator.php` and the others) and the maker's `writeChanges` and success message are recorded as requests only. Their file output is not modelled.
- The contents of the skeleton files are not modelled.
- `src/Util/HookDefinition.php` is not part of this model. Its registry entries are modelled as method definitions.
- Some test data in `tests/Model/MethodDefinitionTest.php` and `tests/Util/HookDefinitionTest.php:58-66` does not match the code. Short type names (`Module` for `Contao\Module`) and rendered defaults (`int $rootId = null`) are expected there, but the code renders neither. The model follows the code.
- The non-interactive mode, `configureCommand` and `configureDependencies` are not modelled. The command argument registrations (`addArgument`) are not modelled either.
- PHP arrays are ordered maps. The registries are sequences of entries, and the template variables and generator options are unordered maps, so their key order is not modelled.
- The `io` option is one console-style value. Subclasses and other objects are not distinguished.
- Registries.Lookup: the key distinctness of the literal registries is not proved; a lookup returns the first entry with the key.
- MakeHook.KeyOf and MakeDcaCallback.KeyOf require the `hook` or `target` argument to be null or a string, as the console gives them. An array argument, which would throw in `array_key_exists`, is not modelled.
- DcaGeneration.Describe gives a short reason for a failed DCA generation. The wording of PHP's exceptions is not reproduced.
- The DCA generator's `projectDir` is stored but never read, as in the source.
- FragmentMaker.ExistingCategories takes the globals registry as a map from key to category names. The `(array)` cast of a scalar global is not modelled.
- `ContaoFramework::initialize()` before reading the globals and the DCA files is not modelled. The resource finder's file listing is a parameter.
- MakeFrontendModule.ElementNamesAgree is stated on the plan once the class name and the template are known (`PlanFor`), not on the whole `Plan`.
- MakeFrontendModule.PlanShape, PaletteRequested, NoPaletteUnlessAsked and TemplateOfController are stated for any template prefix and controller namespace. `Plan` is the instance with `mod` and `Controller\FrontendModule\`.
