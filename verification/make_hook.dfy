/** `make:contao:hook` (src/Maker/MakeHook.php): asks for a hook from the
    registry and generates an event listener class whose method has the
    hook's signature. */
module MakeHook {
  import opened PhpValues
  import opened PhpStrings
  import opened MethodDefinitions
  import opened Registries
  import opened Console
  import opened Requests

  const CommandName := "make:contao:hook"
  const HookTemplate := "hook/Hook.tpl.php"
  const ListenerNamespace := "EventListener\\"

  /** The wording of the question. */
  const HookText := "Choose a hook to implement."

  /** The question `interact` asks: it offers exactly the registry's keys,
      so every offered answer is a hook `generate` knows. */
  function HookQuestion(): (q: Question)
    ensures q.kind == Open && q.default == Null && !q.required
    ensures |q.autocomplete| == |Hooks()|
    ensures forall k :: k in q.autocomplete <==> Lookup(Hooks(), k).Some?
  {
    Question(Open, HookText, Null, Keys(Hooks()), false)
  }

  /** `interact`: stores the answer to the hook question in the `hook`
      argument. The answer is not checked against the registry here. */
  method Interact(input: CommandInput, replies: seq<Option<Value>>, pos: nat) returns (error: Option<string>)
    modifies input
    ensures error == Run([Asked("hook", HookQuestion())], replies, pos).error
    ensures input.arguments == Assign(old(input.arguments), Run([Asked("hook", HookQuestion())], replies, pos).steps)
  {
    error := AskInto(input, Asked("hook", HookQuestion()), replies, pos);
  }

  /** `sprintf('on%s', ucfirst($hook))`. */
  function MethodName(hook: string): (name: string)
    ensures |name| == |hook| + 2 && name[..2] == "on"
    ensures hook != [] ==> name[2] == UpperAscii(hook[0]) && name[3..] == hook[1..]
  {
    "on" + Ucfirst(hook)
  }

  /** Hooks whose names start with a lower-case letter get different method
      names: the upper-casing of the first letter loses nothing. */
  lemma MethodNameInjective(h1: string, h2: string)
    requires h1 != [] && 'a' <= h1[0] <= 'z'
    requires h2 != [] && 'a' <= h2[0] <= 'z'
    requires MethodName(h1) == MethodName(h2)
    ensures h1 == h2
  {
    assert Ucfirst(h1) == Ucfirst(h2) by {
      assert Ucfirst(h1) == MethodName(h1)[2..];
      assert Ucfirst(h2) == MethodName(h2)[2..];
    }
    UcfirstLowerInjective(h1, h2);
  }

  /** The message for a hook that is not in the registry. */
  function NotFoundMessage(hook: string): string {
    "Hook definition \"" + hook + "\" not found."
  }

  /** The template variables of the generated listener. */
  function HookVariables(shortName: string, hook: Value, signature: string): (vars: map<string, Value>)
    ensures vars.Keys == {"class_name", "hook", "signature"}
  {
    map["class_name" := Text(shortName), "hook" := hook, "signature" := Text(signature)]
  }

  /** The registry key for the `hook` argument: `array_key_exists` and
      `sprintf` both read null as the empty string. */
  function KeyOf(hook: Value): string
    requires hook.Null? || hook.Text?
  {
    if hook.Text? then hook.s else ""
  }

  /** `generate` once `$availableHooks` holds the registry: an unknown hook
      only reports an error; a known hook gets one listener class whose
      `signature` variable is the registry definition rendered for
      `on<Hook>`, then the changes are written and success is reported. */
  method GenerateWith(availableHooks: seq<Entry>, hook: Value, className: Value, createDetails: (Value, string) -> ClassNameDetails)
    returns (effects: seq<Effect>)
    requires hook.Null? || hook.Text?
    ensures Lookup(availableHooks, KeyOf(hook)).None? ==> effects == [ErrorMessage(NotFoundMessage(KeyOf(hook)))]
    ensures Lookup(availableHooks, KeyOf(hook)).Some? ==>
      var details := createDetails(className, ListenerNamespace);
      var signature := Signature(Lookup(availableHooks, KeyOf(hook)).value, MethodName(KeyOf(hook)));
      effects == [ClassRequest(HookTemplate, details.fullName, HookVariables(details.shortName, hook, signature)), WriteChanges, SuccessMessage]
    ensures Writes(effects) <==> KeyOf(hook) in Keys(availableHooks)
  {
    var key := KeyOf(hook);
    var found := Lookup(availableHooks, key);
    if found.None? {
      effects := [ErrorMessage(NotFoundMessage(key))];
      return;
    }
    var methodName := MethodName(key);
    var definition := found.value;
    var signature := GetMethodSignature(definition, methodName);
    var elementDetails := createDetails(className, ListenerNamespace);
    var request := ClassRequest(HookTemplate, elementDetails.fullName, HookVariables(elementDetails.shortName, hook, signature));
    effects := [request, WriteChanges, SuccessMessage];
  }

  /** `generate`, with the registry of `getAvailableHooks()`. */
  method Generate(hook: Value, className: Value, createDetails: (Value, string) -> ClassNameDetails) returns (effects: seq<Effect>)
    requires hook.Null? || hook.Text?
    ensures Lookup(Hooks(), KeyOf(hook)).None? ==> effects == [ErrorMessage(NotFoundMessage(KeyOf(hook)))]
    ensures Lookup(Hooks(), KeyOf(hook)).Some? ==>
      var details := createDetails(className, ListenerNamespace);
      var signature := Signature(Lookup(Hooks(), KeyOf(hook)).value, MethodName(KeyOf(hook)));
      effects == [ClassRequest(HookTemplate, details.fullName, HookVariables(details.shortName, hook, signature)), WriteChanges, SuccessMessage]
    ensures Writes(effects) <==> KeyOf(hook) in Keys(Hooks())
  {
    effects := GenerateWith(Hooks(), hook, className, createDetails);
  }

  /** The listener for a hook is declared as `public function on<Hook>(...)`
      with the parameters of the registry entry, one rendered entry each, in
      the registry's order, followed by its return type when that is
      truthy. */
  lemma ListenerSignature(availableHooks: seq<Entry>, key: string)
    requires Lookup(availableHooks, key).Some?
    requires forall p :: p in Lookup(availableHooks, key).value.parameters ==> Plain(p.name) && Plain(TypeText(SpecType(p.spec)))
    ensures exists list ::
      && Signature(Lookup(availableHooks, key).value, MethodName(key)) == "public function " + MethodName(key) + "(" + list + ")" + ReturnSuffix(Lookup(availableHooks, key).value.returnType)
      && SplitList(list) == RenderParams(Lookup(availableHooks, key).value.parameters)
  {
    var d := Lookup(availableHooks, key).value;
    assert forall k :: 0 <= k < |d.parameters| ==> d.parameters[k] in d.parameters;
    SignatureEntries(d, MethodName(key));
  }

  /** `generateXmlFiles` takes no arguments and returns `void`, so its
      listener is declared as `public function onGenerateXmlFiles(): void`. */
  lemma GenerateXmlFilesSignature()
    ensures Signature(MethodDefinition(Some("void"), []), "onGenerateXmlFiles") == "public function onGenerateXmlFiles(): void"
  {
  }
}
