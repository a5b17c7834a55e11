/** `MethodDefinition` (src/Util/MethodDefinition.php): a return type and an
    ordered map from parameter name to parameter spec, rendered into a PHP
    method declaration by `getMethodSignature`. The hook registry's
    `HookDefinition` entries have the same shape and behaviour. */
module MethodDefinitions {
  import opened PhpValues
  import opened PhpStrings

  /** A parameter spec: a bare type (null, '' or a type name), or a PHP
      array `[type, default]` whose first component is the type. */
  datatype ParamSpec =
    | Bare(typeName: Option<string>)
    | WithDefault(typeName: Option<string>, defaultLiteral: Option<string>)

  /** One entry of the parameter map: the key (possibly prefixed with `&`
      for by-reference) and its spec. */
  datatype Param = Param(name: string, spec: ParamSpec)

  /** The definition as constructed; `returnType` and `parameters` are what
      `getReturnType` and `getParameters` hand back. The entries are kept in
      insertion order. */
  datatype MethodDefinition = MethodDefinition(returnType: Option<string>, parameters: seq<Param>)

  /** PHP array keys are unique. */
  predicate DistinctNames(ps: seq<Param>) {
    forall i, j :: 0 <= i < j < |ps| ==> ps[i].name != ps[j].name
  }

  /** The `: returnType` suffix, present only when the return type is
      truthy. */
  function ReturnSuffix(returnType: Option<string>): (suffix: string)
    ensures TruthyOptString(returnType) ==> suffix == ": " + returnType.value
    ensures !TruthyOptString(returnType) ==> suffix == ""
  {
    if TruthyOptString(returnType) then ": " + returnType.value else ""
  }

  /** The parameter is passed by reference when its key starts with `&`. */
  predicate IsByReference(name: string) {
    |name| > 0 && name[0] == '&'
  }

  /** The rendered variable name: the key with every `&` removed. */
  function ParamName(name: string): string {
    RemoveAll(name, "&")
  }

  /** `sprintf('%s', $paramType)`: null prints as the empty string. */
  function TypeText(t: Option<string>): string {
    if t.Some? then t.value else ""
  }

  /** The type component of a spec; a default value is dropped. */
  function SpecType(spec: ParamSpec): Option<string> {
    spec.typeName
  }

  /** One rendered parameter: `trim(sprintf('%s %s$%s', type, ref, name))`. */
  function RenderParam(p: Param): string {
    Trim(TypeText(SpecType(p.spec)) + " " + (if IsByReference(p.name) then "&" else "") + "$" + ParamName(p.name))
  }

  /** The rendered parameters in insertion order. */
  function RenderParams(ps: seq<Param>): (entries: seq<string>)
    ensures |entries| == |ps|
    ensures forall k :: 0 <= k < |ps| ==> entries[k] == RenderParam(ps[k])
  {
    seq(|ps|, k requires 0 <= k < |ps| => RenderParam(ps[k]))
  }

  /** The declaration `getMethodSignature($methodName)` returns. */
  function Signature(d: MethodDefinition, methodName: string): string {
    "public function " + methodName + "(" + Implode(", ", RenderParams(d.parameters)) + ")" + ReturnSuffix(d.returnType)
  }

  /** `getMethodSignature`: one template per parameter, collected in a loop
      and joined with `', '`. The definition is a value and is not changed,
      so calling it again gives the same string. */
  method GetMethodSignature(d: MethodDefinition, methodName: string) returns (signature: string)
    ensures signature == Signature(d, methodName)
  {
    var returnType := if TruthyOptString(d.returnType) then ": " + d.returnType.value else "";
    var parameterTemplates: seq<string> := [];
    var i := 0;
    while i < |d.parameters|
      invariant 0 <= i <= |d.parameters|
      invariant |parameterTemplates| == i
      invariant forall k :: 0 <= k < i ==> parameterTemplates[k] == RenderParam(d.parameters[k])
    {
      var name := d.parameters[i].name;
      var paramName := RemoveAll(name, "&");
      var paramType := d.parameters[i].spec.typeName;
      var paramReference := |name| > 0 && name[0] == '&';
      var parameterTemplate := TypeText(paramType) + " " + (if paramReference then "&" else "") + "$" + paramName;
      parameterTemplate := Trim(parameterTemplate);
      parameterTemplates := parameterTemplates + [parameterTemplate];
      i := i + 1;
    }
    assert parameterTemplates == RenderParams(d.parameters);
    signature := "public function " + methodName + "(" + Implode(", ", parameterTemplates) + ")" + returnType;
  }

  // ---------------------------------------------------------------------
  // What the rendering promises

  /** Characters that never appear in a parameter key or type name of the
      registries: whitespace and commas. */
  predicate Plain(s: string) {
    forall k :: 0 <= k < |s| ==> s[k] !in TrimSpace && s[k] != ','
  }

  /** The type prefix of an entry: `type ` for a non-empty type, nothing for
      a null or empty one. */
  function TypePrefix(t: Option<string>): string {
    if t.Some? && t.value != "" then t.value + " " else ""
  }

  /** Trimming `type + " " + rest`, where `rest` starts and ends with kept
      characters, drops the space when the type is empty and nothing
      otherwise. */
  lemma TrimEntry(t: string, rest: string)
    requires rest != [] && rest[0] !in TrimSpace && rest[|rest| - 1] !in TrimSpace
    requires t == [] || t[0] !in TrimSpace
    ensures Trim(t + " " + rest) == if t == [] then rest else t + " " + rest
  {
    if t == [] {
      assert t + " " + rest == " " + rest;
      assert RTrim(rest, TrimSpace) == rest;
      RTrimPrepend(" ", rest, TrimSpace);
      assert (" " + rest)[1..] == rest;
      assert LTrim(" " + rest, TrimSpace) == LTrim(rest, TrimSpace);
    } else {
      var s := t + " " + rest;
      assert s[0] == t[0];
      assert s[|s| - 1] == rest[|rest| - 1];
      TrimUnchanged(s);
    }
  }

  /** A rendered entry is `type &$name` or `type $name`, with the type copied
      verbatim and no type at all for a null or empty type; `&` stands right
      before `$` exactly when the key starts with `&`, and the rendered name
      is the key without any `&`. */
  lemma RenderParamShape(p: Param)
    requires Plain(p.name) && Plain(TypeText(SpecType(p.spec)))
    ensures RenderParam(p) ==
      TypePrefix(SpecType(p.spec)) + (if IsByReference(p.name) then "&$" else "$") + ParamName(p.name)
    ensures '&' !in ParamName(p.name)
    ensures forall c :: c in ParamName(p.name) <==> c in p.name && c != '&'
  {
    var t := TypeText(SpecType(p.spec));
    var name := ParamName(p.name);
    var rest := (if IsByReference(p.name) then "&$" else "$") + name;
    assert t + " " + (if IsByReference(p.name) then "&" else "") + "$" + name == t + " " + rest;
    RemoveCharSpec(p.name, '&');
    assert rest[|rest| - 1] !in TrimSpace by {
      if name != [] {
        assert name[|name| - 1] in p.name;
      }
    }
    TrimEntry(t, rest);
    var prefix := TypePrefix(SpecType(p.spec));
    var sigil := if IsByReference(p.name) then "&$" else "$";
    assert prefix + sigil + name == prefix + rest;
    if t == [] {
      assert prefix == [];
      assert prefix + rest == rest;
    } else {
      assert prefix == t + " ";
    }
  }

  /** A `[type, default]` pair renders exactly as the bare type: the
      default value never reaches the output. */
  lemma DefaultIgnored(name: string, t: Option<string>, d: Option<string>)
    ensures RenderParam(Param(name, WithDefault(t, d))) == RenderParam(Param(name, Bare(t)))
  {
  }

  /** With no parameters the list is `()`. */
  lemma EmptyParameterList(d: MethodDefinition, methodName: string)
    requires d.parameters == []
    ensures Signature(d, methodName) == "public function " + methodName + "()" + ReturnSuffix(d.returnType)
  {
  }

  /** The declaration is `public function name(list)` plus the return-type
      suffix, and the list reads back as one entry per parameter, in
      insertion order, when keys and types are plain. */
  lemma {:induction false} SignatureEntries(d: MethodDefinition, methodName: string)
    requires forall k :: 0 <= k < |d.parameters| ==>
      Plain(d.parameters[k].name) && Plain(TypeText(SpecType(d.parameters[k].spec)))
    ensures exists list ::
      && Signature(d, methodName) == "public function " + methodName + "(" + list + ")" + ReturnSuffix(d.returnType)
      && SplitList(list) == RenderParams(d.parameters)
  {
    var entries := RenderParams(d.parameters);
    forall k | 0 <= k < |entries| ensures entries[k] != [] && ',' !in entries[k] {
      var p := d.parameters[k];
      RenderParamShape(p);
      var body := (if IsByReference(p.name) then "&$" else "$") + ParamName(p.name);
      assert entries[k] == TypePrefix(SpecType(p.spec)) + body;
      var t := TypeText(SpecType(p.spec));
      assert ',' !in t;
      assert ',' !in ParamName(p.name);
      assert ',' !in TypePrefix(SpecType(p.spec));
      assert ',' !in body;
    }
    SplitImplode(entries);
  }

  /** The return-type suffix is `: type` exactly when the type is truthy;
      null, '' and '0' give no suffix at all, while an explicit `void` is
      kept. */
  lemma ReturnSuffixCases(t: Option<string>)
    ensures ReturnSuffix(t) == "" <==> (t == None || t == Some("") || t == Some("0"))
    ensures ReturnSuffix(Some("void")) == ": void"
  {
  }

  /** With a `void` return type and no parameters, `__invoke` is declared
      as `public function __invoke(): void`. */
  lemma InvokeVoidSignature()
    ensures Signature(MethodDefinition(Some("void"), []), "__invoke") == "public function __invoke(): void"
  {
  }

  /** Without a return type and without parameters there is no suffix at
      all. */
  lemma InvokeUntypedSignature()
    ensures Signature(MethodDefinition(None, []), "__invoke") == "public function __invoke()"
  {
  }
}
