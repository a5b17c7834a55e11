/** `CallbackDefinition` (src/Util/CallbackDefinition.php): a method
    definition together with the services the generated callback depends
    on. */
module CallbackDefinitions {
  import opened MethodDefinitions

  datatype CallbackDefinition = CallbackDefinition(methodDefinition: MethodDefinition, dependencies: seq<string>)

  /** `new CallbackDefinition($methodDefinition)`: the dependencies default
      to the empty list. */
  function NewCallbackDefinition(methodDefinition: MethodDefinition): (c: CallbackDefinition)
    ensures c.dependencies == []
    ensures c.methodDefinition == methodDefinition
  {
    CallbackDefinition(methodDefinition, [])
  }

  /** The getters hand back exactly what was passed in, and a callback
      definition renders the signature of its method definition. */
  lemma GettersReturnArguments(d: MethodDefinition, deps: seq<string>, methodName: string)
    ensures CallbackDefinition(d, deps).dependencies == deps
    ensures CallbackDefinition(d, deps).methodDefinition == d
    ensures Signature(CallbackDefinition(d, deps).methodDefinition, methodName) == Signature(d, methodName)
  {
  }
}
