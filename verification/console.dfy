/** The console side of a maker: the command input whose arguments the
    `interact` methods set one question after another, the questions they
    ask, and the required-value validator of the fragment makers. The
    console itself is not part of this model: the lines typed in answer to
    the questions asked are given as a script of replies, `None` standing
    for an empty line. `askQuestion` trims a typed line, returns the
    question's default for an empty one and reads the answer to a
    confirmation question as yes or no. */
module Console {
  import opened PhpValues
  import opened PhpStrings

  /** A confirmation (yes/no) question or an open question. */
  datatype QuestionKind = Confirmation | Open

  /** A question as the makers build it: its text, its default, the values
      offered for autocompletion and whether the required validator is
      attached. */
  datatype Question = Question(kind: QuestionKind, text: string, default: Value, autocomplete: seq<string>, required: bool)

  /** One question and the input argument its answer is stored in. */
  datatype Asked = Asked(argument: string, question: Question)

  /** One `$input->setArgument($name, $value)`. */
  datatype Assignment = Assignment(argument: string, value: Value)

  /** The arguments set by a run of questions, in order, and the message of
      the exception that ended it early, if any. */
  datatype Transcript = Transcript(steps: seq<Assignment>, error: Option<string>)

  const BlankMessage := "This value cannot be blank"
  const AbortedMessage := "Aborted."

  /** The values the required validator refuses: null and the empty string. */
  predicate Blank(v: Value) {
    v == Null || v == Text("")
  }

  /** `$requiredValidator`: throws on null and `''`, otherwise hands the
      input back unchanged. */
  function RequiredValidator(v: Value): (r: Result<Value, string>)
    ensures r.Failure? <==> Blank(v)
    ensures r.Failure? ==> r.error == BlankMessage
    ensures r.Success? ==> r.value == v
  {
    if v == Null || v == Text("") then Failure(BlankMessage) else Success(v)
  }

  /** The line as the console reads it: trimmed, and `None` when nothing
      but whitespace was typed. */
  function Typed(reply: Option<Value>): Option<Value> {
    match reply
    case None => None
    case Some(v) =>
      if v.Text? then (if Trim(v.s) == [] then None else Some(Text(Trim(v.s)))) else reply
  }

  /** Whether a typed answer matches the confirmation question's yes
      pattern `/^y/i`. */
  predicate IsYes(s: string) {
    s != [] && (s[0] == 'y' || s[0] == 'Y')
  }

  /** The normalizer of a confirmation question: a boolean is kept; a text
      is yes when it matches the yes pattern, and the empty text is yes
      too unless the default is false. */
  function Confirm(default: Value, answer: Value): Value {
    if answer.Text? then
      (if default == Flag(false) then Flag(IsYes(answer.s)) else Flag(answer.s == [] || IsYes(answer.s)))
    else answer
  }

  /** What a reply stands for: the typed answer, or the question's default
      for an empty line, normalized to yes or no for a confirmation
      question. */
  function ReplyValue(q: Question, reply: Option<Value>): Value {
    var answer := if Typed(reply).None? then q.default else Typed(reply).value;
    if q.kind == Confirmation then Confirm(q.default, answer) else answer
  }

  /** What `askQuestion` returns for one reply: what the reply stands for,
      passed through the validator when one is attached. */
  function AnswerFor(q: Question, reply: Option<Value>): (r: Result<Value, string>)
    ensures r.Success? && q.required ==> !Blank(r.value)
    ensures r.Success? ==> r.value == ReplyValue(q, reply)
    ensures r.Failure? <==> q.required && Blank(ReplyValue(q, reply))
    ensures r.Failure? ==> r.error == BlankMessage
  {
    var v := ReplyValue(q, reply);
    if q.required then RequiredValidator(v) else Success(v)
  }

  /** An empty line, or one of whitespace only, gives an open question's
      default; a typed answer is stored without its surrounding
      whitespace. */
  lemma OpenReply(q: Question, s: string)
    requires q.kind == Open
    ensures ReplyValue(q, None) == q.default
    ensures Trim(s) == [] ==> ReplyValue(q, Some(Text(s))) == q.default
    ensures Trim(s) != [] ==> ReplyValue(q, Some(Text(s))) == Text(Trim(s))
  {
  }

  /** A confirmation question that defaults to yes: an empty line is yes,
      an answer is yes exactly when it starts with `y` or `Y` once trimmed,
      and the answer is always a boolean. */
  lemma ConfirmationReply(q: Question, s: string)
    requires q.kind == Confirmation && q.default == Flag(true)
    ensures ReplyValue(q, None) == Flag(true)
    ensures ReplyValue(q, Some(Text(s))) == Flag(Trim(s) == [] || IsYes(Trim(s)))
    ensures ReplyValue(q, Some(Text(s))).Flag?
  {
  }

  /** Asking `qs` in order from reply `pos` on, stopping at the first
      refused answer or when the replies run out. */
  function Run(qs: seq<Asked>, replies: seq<Option<Value>>, pos: nat): (t: Transcript)
    ensures |t.steps| <= |qs|
    ensures t.error.None? <==> |t.steps| == |qs|
    decreases |qs|
  {
    if qs == [] then Transcript([], None)
    else if pos >= |replies| then Transcript([], Some(AbortedMessage))
    else match AnswerFor(qs[0].question, replies[pos])
      case Failure(e) => Transcript([], Some(e))
      case Success(v) =>
        var rest := Run(qs[1..], replies, pos + 1);
        Transcript([Assignment(qs[0].argument, v)] + rest.steps, rest.error)
  }

  /** Each answer of a run is stored under its question's argument, is
      what its reply stands for, and is never blank for a question with the
      validator. */
  lemma {:induction false} RunSpec(qs: seq<Asked>, replies: seq<Option<Value>>, pos: nat)
    ensures |Run(qs, replies, pos).steps| > 0 ==> pos + |Run(qs, replies, pos).steps| <= |replies|
    ensures forall k :: 0 <= k < |Run(qs, replies, pos).steps| ==>
      Run(qs, replies, pos).steps[k].value == ReplyValue(qs[k].question, replies[pos + k])
    ensures forall k :: 0 <= k < |Run(qs, replies, pos).steps| ==> Run(qs, replies, pos).steps[k].argument == qs[k].argument
    ensures forall k :: 0 <= k < |Run(qs, replies, pos).steps| && qs[k].question.required ==> !Blank(Run(qs, replies, pos).steps[k].value)
    decreases |qs|
  {
    if qs != [] && pos < |replies| && AnswerFor(qs[0].question, replies[pos]).Success? {
      RunSpec(qs[1..], replies, pos + 1);
      var rest := Run(qs[1..], replies, pos + 1);
      var t := Run(qs, replies, pos);
      assert t.steps[0].value == ReplyValue(qs[0].question, replies[pos]);
      forall k | 0 <= k < |t.steps|
        ensures t.steps[k] == Assignment(qs[k].argument, ReplyValue(qs[k].question, replies[pos + k]))
      {
        if k > 0 {
          assert t.steps[k] == rest.steps[k - 1];
          assert qs[1..][k - 1] == qs[k];
        }
      }
      forall k | 0 <= k < |t.steps| && qs[k].question.required
        ensures !Blank(t.steps[k].value)
      {
        if k > 0 {
          assert t.steps[k] == rest.steps[k - 1];
          assert qs[1..][k - 1] == qs[k];
        }
      }
    } else {
      assert Run(qs, replies, pos).steps == [];
    }
  }

  /** Asking `qs1` and then `qs2` is asking `qs1 + qs2`: the second run
      starts where the first one stopped, and only when it did not fail. */
  lemma {:induction false} RunAppend(qs1: seq<Asked>, qs2: seq<Asked>, replies: seq<Option<Value>>, pos: nat)
    ensures Run(qs1, replies, pos).error.Some? ==> Run(qs1 + qs2, replies, pos) == Run(qs1, replies, pos)
    ensures Run(qs1, replies, pos).error.None? ==>
      Run(qs1 + qs2, replies, pos) ==
        Transcript(Run(qs1, replies, pos).steps + Run(qs2, replies, pos + |qs1|).steps, Run(qs2, replies, pos + |qs1|).error)
    decreases |qs1|
  {
    if qs1 == [] {
      assert qs1 + qs2 == qs2;
    } else {
      assert (qs1 + qs2)[0] == qs1[0];
      assert (qs1 + qs2)[1..] == qs1[1..] + qs2;
      if pos < |replies| && AnswerFor(qs1[0].question, replies[pos]).Success? {
        RunAppend(qs1[1..], qs2, replies, pos + 1);
        var v := AnswerFor(qs1[0].question, replies[pos]).value;
        var r1 := Run(qs1[1..], replies, pos + 1);
        var r2 := Run(qs2, replies, pos + |qs1|);
        assert [Assignment(qs1[0].argument, v)] + (r1.steps + r2.steps) == [Assignment(qs1[0].argument, v)] + r1.steps + r2.steps;
      }
    }
  }

  /** A run that fails on a prefix of the questions fails the same way on
      all of them. */
  lemma RunPrefixError(qs: seq<Asked>, k: nat, replies: seq<Option<Value>>, pos: nat)
    requires k <= |qs| && Run(qs[..k], replies, pos).error.Some?
    ensures Run(qs, replies, pos) == Run(qs[..k], replies, pos)
  {
    RunAppend(qs[..k], qs[k..], replies, pos);
    assert qs[..k] + qs[k..] == qs;
  }

  /** The arguments after the assignments of `steps`, in order; a later
      assignment to the same name wins. */
  function Assign(m: map<string, Value>, steps: seq<Assignment>): map<string, Value>
    decreases |steps|
  {
    if steps == [] then m
    else Assign(m, steps[..|steps| - 1])[steps[|steps| - 1].argument := steps[|steps| - 1].value]
  }

  /** Assigning two runs one after the other is assigning their
      concatenation. */
  lemma {:induction false} AssignAppend(m: map<string, Value>, s: seq<Assignment>, t: seq<Assignment>)
    ensures Assign(m, s + t) == Assign(Assign(m, s), t)
    decreases |t|
  {
    if t == [] {
      assert s + t == s;
    } else {
      assert (s + t)[..|s + t| - 1] == s + t[..|t| - 1];
      AssignAppend(m, s, t[..|t| - 1]);
    }
  }

  /** One assignment sets one argument. */
  lemma AssignSingle(m: map<string, Value>, a: Assignment)
    ensures Assign(m, [a]) == m[a.argument := a.value]
  {
    assert [a][..0] == [];
  }

  /** Assignments to distinct names: each ends up holding its own value, and
      every other argument keeps its old value. */
  lemma {:induction false} AssignDistinct(m: map<string, Value>, steps: seq<Assignment>)
    requires forall i, j :: 0 <= i < j < |steps| ==> steps[i].argument != steps[j].argument
    ensures forall k :: 0 <= k < |steps| ==> steps[k].argument in Assign(m, steps) && Assign(m, steps)[steps[k].argument] == steps[k].value
    ensures forall name :: name !in m && (forall k :: 0 <= k < |steps| ==> steps[k].argument != name) ==> name !in Assign(m, steps)
    ensures forall name :: name in m && (forall k :: 0 <= k < |steps| ==> steps[k].argument != name) ==>
      name in Assign(m, steps) && Assign(m, steps)[name] == m[name]
    decreases |steps|
  {
    if steps != [] {
      var init := steps[..|steps| - 1];
      AssignDistinct(m, init);
      assert forall k :: 0 <= k < |init| ==> init[k] == steps[k];
    }
  }

  /** An argument that none of the assignments names keeps its value, or
      stays unset. */
  lemma {:induction false} AssignOthers(m: map<string, Value>, steps: seq<Assignment>, name: string)
    requires forall k :: 0 <= k < |steps| ==> steps[k].argument != name
    ensures name in Assign(m, steps) <==> name in m
    ensures name in m ==> Assign(m, steps)[name] == m[name]
    decreases |steps|
  {
    if steps != [] {
      AssignOthers(m, steps[..|steps| - 1], name);
    }
  }

  /** The command input: the arguments set so far, by name. An argument
      that is defined but not set reads as null. */
  class CommandInput {
    var arguments: map<string, Value>

    constructor(arguments: map<string, Value>)
      ensures this.arguments == arguments
    {
      this.arguments := arguments;
    }

    /** `$input->getArgument($name)`. */
    function GetArgument(name: string): (v: Value)
      reads this
      ensures name in arguments ==> v == arguments[name]
      ensures name !in arguments ==> v == Null
    {
      if name in arguments then arguments[name] else Null
    }

    /** `$input->setArgument($name, $value)`. */
    method SetArgument(name: string, value: Value)
      modifies this
      ensures arguments == old(arguments)[name := value]
    {
      arguments := arguments[name := value];
    }
  }

  /** `$input->setArgument($name, $io->askQuestion($question))` with the
      reply at `pos`: on a refused answer, or when no reply is left, the
      exception propagates and nothing is set. */
  method AskInto(input: CommandInput, asked: Asked, replies: seq<Option<Value>>, pos: nat) returns (error: Option<string>)
    modifies input
    ensures Run([asked], replies, pos).error == error
    ensures input.arguments == Assign(old(input.arguments), Run([asked], replies, pos).steps)
  {
    assert [asked][1..] == [];
    if pos >= |replies| {
      return Some(AbortedMessage);
    }
    var answer := AnswerFor(asked.question, replies[pos]);
    if answer.Failure? {
      return Some(answer.error);
    }
    input.SetArgument(asked.argument, answer.value);
    error := None;
  }

  /** The next question after the run `done`, which stored its answers on
      top of `m0`: the answer is stored, and the whole run is extended by
      one question. */
  method AskNext(input: CommandInput, ghost m0: map<string, Value>, done: seq<Asked>, asked: Asked, replies: seq<Option<Value>>, pos: nat)
    returns (error: Option<string>)
    requires Run(done, replies, pos).error.None?
    requires input.arguments == Assign(m0, Run(done, replies, pos).steps)
    modifies input
    ensures error == Run(done + [asked], replies, pos).error
    ensures input.arguments == Assign(m0, Run(done + [asked], replies, pos).steps)
  {
    error := AskInto(input, asked, replies, pos + |done|);
    RunAppend(done, [asked], replies, pos);
    AssignAppend(m0, Run(done, replies, pos).steps, Run([asked], replies, pos + |done|).steps);
  }

  /** `foreach` over questions: each answer is stored before the next
      question is asked, and the first refused answer ends the loop. */
  method AskEach(input: CommandInput, qs: seq<Asked>, replies: seq<Option<Value>>, pos: nat) returns (error: Option<string>)
    modifies input
    ensures error == Run(qs, replies, pos).error
    ensures input.arguments == Assign(old(input.arguments), Run(qs, replies, pos).steps)
  {
    ghost var m0 := input.arguments;
    error := None;
    for i := 0 to |qs|
      invariant error.None? && Run(qs[..i], replies, pos).error.None?
      invariant input.arguments == Assign(m0, Run(qs[..i], replies, pos).steps)
    {
      error := AskNext(input, m0, qs[..i], qs[i], replies, pos);
      assert qs[..i] + [qs[i]] == qs[..i + 1];
      if error.Some? {
        RunPrefixError(qs, i + 1, replies, pos);
        return;
      }
    }
    assert qs[..|qs|] == qs;
  }
}
