/** `make:contao:dca-callback` (src/Maker/MakeDcaCallback.php): asks for a
    table and a callback target and generates an event listener class whose
    method has the target's signature. */
module MakeDcaCallback {
  import opened PhpValues
  import opened PhpStrings
  import opened MethodDefinitions
  import opened Registries
  import opened Console
  import opened Requests

  const CommandName := "make:contao:dca-callback"
  const CallbackTemplate := "dca-callback/Callback.tpl.php"
  const ListenerNamespace := "EventListener\\"
  const CallbackMethodName := "onCallback"

  /** The wording of the questions. */
  const TableText := "Choose a table for this callback"
  const TargetText := "Choose a target for this callback"

  /** The table names derived from the DCA files: each relative path name
      with every `.php` removed. */
  function StripPhp(relativePathnames: seq<string>): (names: seq<string>)
    ensures |names| == |relativePathnames|
    ensures forall i :: 0 <= i < |names| ==> names[i] == RemoveAll(relativePathnames[i], ".php")
  {
    seq(|relativePathnames|, i requires 0 <= i < |relativePathnames| => RemoveAll(relativePathnames[i], ".php"))
  }

  /** `getTables()` over the relative path names of the `*.php` files found
      directly in the bundles' `dca` directories: every table once, in the
      order of its first file. */
  function Tables(relativePathnames: seq<string>): (tables: seq<string>)
    ensures forall t :: t in tables <==> exists i :: 0 <= i < |relativePathnames| && RemoveAll(relativePathnames[i], ".php") == t
    ensures Distinct(tables)
  {
    var names := StripPhp(relativePathnames);
    assert forall t :: t in names <==> exists i :: 0 <= i < |relativePathnames| && RemoveAll(relativePathnames[i], ".php") == t;
    ArrayUnique(names)
  }

  /** Files named `<table>.php`, where no table name contains `.php`, give
      back their table names; a table defined by several bundles is listed
      once, at the place of its first file, and tables of distinct files are
      listed as found. */
  lemma {:induction false} TablesOfDcaFiles(relativePathnames: seq<string>, tableNames: seq<string>)
    requires |relativePathnames| == |tableNames|
    requires forall i :: 0 <= i < |tableNames| ==> relativePathnames[i] == tableNames[i] + ".php"
    requires forall i, k: nat :: 0 <= i < |tableNames| ==> !OccursAt(tableNames[i], ".php", k)
    ensures Tables(relativePathnames) == ArrayUnique(tableNames)
    ensures forall i, j :: 0 <= i < j < |Tables(relativePathnames)| ==>
      FirstIndex(tableNames, Tables(relativePathnames)[i]) < FirstIndex(tableNames, Tables(relativePathnames)[j])
    ensures Distinct(tableNames) ==> Tables(relativePathnames) == tableNames
  {
    forall i | 0 <= i < |tableNames| ensures RemoveAll(relativePathnames[i], ".php") == tableNames[i] {
      RemovePhpSuffix(tableNames[i]);
    }
    assert StripPhp(relativePathnames) == tableNames;
    ArrayUniqueOrder(tableNames);
    if Distinct(tableNames) {
      ArrayUniqueDistinct(tableNames);
    }
  }

  /** The table question: any answer is accepted, the tables are offered. */
  function TableQuestion(tables: seq<string>): (q: Question)
    ensures q.kind == Open && q.default == Null && !q.required && q.autocomplete == tables
  {
    Question(Open, TableText, Null, tables, false)
  }

  /** The target question: it offers exactly the registry's keys. */
  function TargetQuestion(): (q: Question)
    ensures q.kind == Open && q.default == Null && !q.required
    ensures forall k :: k in q.autocomplete <==> Lookup(Targets(), k).Some?
  {
    Question(Open, TargetText, Null, Keys(Targets()), false)
  }

  /** The two questions `interact` asks, in order. */
  function Questions(tables: seq<string>): seq<Asked> {
    [Asked("table", TableQuestion(tables)), Asked("target", TargetQuestion())]
  }

  /** `interact`: the table, then the target; neither answer is checked. */
  method Interact(input: CommandInput, relativePathnames: seq<string>, replies: seq<Option<Value>>, pos: nat)
    returns (error: Option<string>)
    modifies input
    ensures error == Run(Questions(Tables(relativePathnames)), replies, pos).error
    ensures input.arguments == Assign(old(input.arguments), Run(Questions(Tables(relativePathnames)), replies, pos).steps)
  {
    var tables := Tables(relativePathnames);
    var first := Asked("table", TableQuestion(tables));
    var second := Asked("target", TargetQuestion());
    assert Questions(tables) == [first] + [second];
    RunAppend([first], [second], replies, pos);
    error := AskInto(input, first, replies, pos);
    if error.Some? {
      return;
    }
    error := AskInto(input, second, replies, pos + 1);
    AssignAppend(old(input.arguments), Run([first], replies, pos).steps, Run([second], replies, pos + 1).steps);
  }

  /** The message for a target that is not in the registry. */
  function NotFoundMessage(target: string): string {
    "Callback definition \"" + target + "\" not found."
  }

  /** The template variables of the generated listener. */
  function CallbackVariables(shortName: string, target: Value, table: Value, signature: string): (vars: map<string, Value>)
    ensures vars.Keys == {"class_name", "target", "table", "signature"}
  {
    map["class_name" := Text(shortName), "target" := target, "table" := table, "signature" := Text(signature)]
  }

  /** The registry key for the `target` argument: `array_key_exists` and
      `sprintf` both read null as the empty string. */
  function KeyOf(target: Value): string
    requires target.Null? || target.Text?
  {
    if target.Text? then target.s else ""
  }

  /** `generate` once `$availableTargets` holds the registry: an unknown
      target only reports an error; a known one gets one listener class
      whose `signature` variable is the target's definition rendered for
      `onCallback`, with the table passed through unchecked. */
  method GenerateWith(availableTargets: seq<Entry>, target: Value, table: Value, className: Value, createDetails: (Value, string) -> ClassNameDetails)
    returns (effects: seq<Effect>)
    requires target.Null? || target.Text?
    ensures Lookup(availableTargets, KeyOf(target)).None? ==> effects == [ErrorMessage(NotFoundMessage(KeyOf(target)))]
    ensures Lookup(availableTargets, KeyOf(target)).Some? ==>
      var details := createDetails(className, ListenerNamespace);
      var signature := Signature(Lookup(availableTargets, KeyOf(target)).value, CallbackMethodName);
      effects == [ClassRequest(CallbackTemplate, details.fullName, CallbackVariables(details.shortName, target, table, signature)), WriteChanges, SuccessMessage]
    ensures Writes(effects) <==> KeyOf(target) in Keys(availableTargets)
  {
    var key := KeyOf(target);
    var found := Lookup(availableTargets, key);
    if found.None? {
      effects := [ErrorMessage(NotFoundMessage(key))];
      return;
    }
    var methodName := CallbackMethodName;
    var definition := found.value;
    var signature := GetMethodSignature(definition, methodName);
    var elementDetails := createDetails(className, ListenerNamespace);
    var request := ClassRequest(CallbackTemplate, elementDetails.fullName, CallbackVariables(elementDetails.shortName, target, table, signature));
    effects := [request, WriteChanges, SuccessMessage];
  }

  /** `generate`, with the registry of `getTargets()`. */
  method Generate(target: Value, table: Value, className: Value, createDetails: (Value, string) -> ClassNameDetails)
    returns (effects: seq<Effect>)
    requires target.Null? || target.Text?
    ensures Lookup(Targets(), KeyOf(target)).None? ==> effects == [ErrorMessage(NotFoundMessage(KeyOf(target)))]
    ensures Lookup(Targets(), KeyOf(target)).Some? ==>
      var details := createDetails(className, ListenerNamespace);
      var signature := Signature(Lookup(Targets(), KeyOf(target)).value, CallbackMethodName);
      effects == [ClassRequest(CallbackTemplate, details.fullName, CallbackVariables(details.shortName, target, table, signature)), WriteChanges, SuccessMessage]
    ensures Writes(effects) <==> KeyOf(target) in Keys(Targets())
  {
    effects := GenerateWith(Targets(), target, table, className, createDetails);
  }

  /** The `config.onsubmit` callback is declared as
      `public function onCallback(): void`. */
  lemma OnSubmitCallbackSignature()
    ensures Signature(MethodDefinition(Some("void"), []), CallbackMethodName) == "public function onCallback(): void"
  {
  }
}
