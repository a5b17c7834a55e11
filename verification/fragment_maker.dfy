/** What every fragment maker shares (src/Maker/AbstractFragmentMaker.php):
    the interview that fills the input arguments, the template name derived
    from the generated class name, and the categories suggested from the
    fragment registry. */
module FragmentMaker {
  import opened PhpValues
  import opened PhpStrings
  import opened Console

  /** The wording of the questions. */
  const PaletteText := "Do you want to add an empty DCA palette?"
  const CategoryText := "Choose a category"
  const TranslationText := "Do you want to add translations?"
  const LanguageText := "What language do you want the element name translate to? (e.g. <fg=yellow>de</> or <fg=yellow>en</>)"
  const NameText := "Choose a translated name for this element"
  const DescriptionText := "Choose a translated description for this element"

  /** The error `ltrim` throws when `strrchr` found no namespace separator. */
  const MissingSeparatorError := "ltrim(): Argument #1 ($string) must be of type string, bool given"

  /** The first three questions: palette, category, translations. */
  function PaletteQuestion(): Question {
    Question(Confirmation, PaletteText, Flag(true), [], false)
  }

  function CategoryQuestion(categories: seq<string>): (q: Question)
    ensures q.required && q.default == Null && q.autocomplete == categories
  {
    Question(Open, CategoryText, Null, categories, true)
  }

  function TranslationQuestion(): Question {
    Question(Confirmation, TranslationText, Flag(true), [], false)
  }

  function LanguageQuestion(): Question {
    Question(Open, LanguageText, Text("en"), [], false)
  }

  /** The question for one of the translated fields, with the validator. */
  function FieldQuestion(field: string): (q: Question)
    ensures q.required && q.default == Null
  {
    var text := if field == "translatedName" then NameText
      else DescriptionText;
    Question(Open, text, Null, [], true)
  }

  /** The fields asked for in the loop, in order. */
  const TranslatedFields := ["translatedName", "translatedDescription"]

  /** Every argument the interview may set. */
  const InterviewArguments: set<string> :=
    {"addEmptyDcaPalette", "category", "addTranslation", "language", "translatedName", "translatedDescription"}

  function FirstQuestions(categories: seq<string>): (qs: seq<Asked>)
    ensures |qs| == 3
  {
    [Asked("addEmptyDcaPalette", PaletteQuestion()),
     Asked("category", CategoryQuestion(categories)),
     Asked("addTranslation", TranslationQuestion())]
  }

  function TranslationQuestions(): (qs: seq<Asked>)
    ensures |qs| == 3
  {
    [Asked("language", LanguageQuestion()),
     Asked(TranslatedFields[0], FieldQuestion(TranslatedFields[0])),
     Asked(TranslatedFields[1], FieldQuestion(TranslatedFields[1]))]
  }

  /** An interview of three questions, the last of them the translation
      question, followed, when its answer is truthy, by the translation
      questions. */
  function InterviewOf(first: seq<Asked>, translation: seq<Asked>, replies: seq<Option<Value>>, pos: nat): Transcript
    requires |first| == 3
  {
    var t := Run(first, replies, pos);
    if t.error.Some? || !Truthy(t.steps[2].value) then t
    else
      var second := Run(translation, replies, pos + 3);
      Transcript(t.steps + second.steps, second.error)
  }

  /** The whole interview from reply `pos` on: the three first questions,
      then, when the answer to the translation question is truthy, the
      language and the two translated fields. */
  function Interview(categories: seq<string>, replies: seq<Option<Value>>, pos: nat): Transcript {
    InterviewOf(FirstQuestions(categories), TranslationQuestions(), replies, pos)
  }

  /** The translation part of `interact`: the language, then the
      translated fields in a loop. */
  method AskTranslation(input: CommandInput, translation: seq<Asked>, replies: seq<Option<Value>>, pos: nat)
    returns (error: Option<string>)
    requires |translation| == 3
    modifies input
    ensures error == Run(translation, replies, pos).error
    ensures input.arguments == Assign(old(input.arguments), Run(translation, replies, pos).steps)
  {
    ghost var m0 := input.arguments;
    error := AskInto(input, translation[0], replies, pos);
    RunAppend([translation[0]], translation[1..], replies, pos);
    assert [translation[0]] + translation[1..] == translation;
    if error.Some? {
      return;
    }
    ghost var m1 := input.arguments;
    error := AskEach(input, translation[1..], replies, pos + 1);
    AssignAppend(m0, Run([translation[0]], replies, pos).steps, Run(translation[1..], replies, pos + 1).steps);
  }

  /** `interact` over the given question lists: one question after
      another, each answer stored as soon as it is given; a refused answer
      or missing input ends the interview with its message. The
      categories are listed once the first question was answered. */
  method InteractWith(input: CommandInput, first: seq<Asked>, translation: seq<Asked>, replies: seq<Option<Value>>, pos: nat)
    returns (error: Option<string>, listing: bool)
    requires |first| == 3 && first[2].argument == "addTranslation" && |translation| == 3
    modifies input
    ensures error == InterviewOf(first, translation, replies, pos).error
    ensures input.arguments == Assign(old(input.arguments), InterviewOf(first, translation, replies, pos).steps)
    ensures listing <==> Run(first[..1], replies, pos).error.None?
  {
    ghost var m0 := input.arguments;
    error := AskNext(input, m0, [], first[0], replies, pos);
    assert [] + [first[0]] == first[..1];
    listing := error.None?;
    if error.Some? {
      RunPrefixError(first, 1, replies, pos);
      return;
    }
    error := AskNext(input, m0, first[..1], first[1], replies, pos);
    assert first[..1] + [first[1]] == first[..2];
    if error.Some? {
      RunPrefixError(first, 2, replies, pos);
      return;
    }
    error := AskNext(input, m0, first[..2], first[2], replies, pos);
    assert first[..2] + [first[2]] == first;
    if error.Some? {
      return;
    }
    ghost var t := Run(first, replies, pos);
    RunSpec(first, replies, pos);
    assert input.GetArgument("addTranslation") == t.steps[2].value;
    if Truthy(input.GetArgument("addTranslation")) {
      error := AskTranslation(input, translation, replies, pos + 3);
      AssignAppend(m0, t.steps, Run(translation, replies, pos + 3).steps);
    }
  }

  /** `interact` of the fragment makers, with their questions. The
      suggested categories are listed between the palette question and the
      category question, so exactly when there was a reply to the palette
      question, which never refuses an answer. */
  method Interact(input: CommandInput, categories: seq<string>, replies: seq<Option<Value>>, pos: nat)
    returns (error: Option<string>, listed: seq<string>)
    modifies input
    ensures error == Interview(categories, replies, pos).error
    ensures input.arguments == Assign(old(input.arguments), Interview(categories, replies, pos).steps)
    ensures listed == if pos < |replies| then categories else []
  {
    var listing;
    error, listing := InteractWith(input, FirstQuestions(categories), TranslationQuestions(), replies, pos);
    listed := if listing then categories else [];
    assert FirstQuestions(categories)[..1] == [Asked("addEmptyDcaPalette", PaletteQuestion())];
  }

  /** What a completed interview leaves in the input: the palette, category
      and translation answers; the category never blank; and, when
      translations were asked for, a language and two non-blank translated
      fields. */
  lemma InterviewOfOutcome(m: map<string, Value>, first: seq<Asked>, translation: seq<Asked>, replies: seq<Option<Value>>, pos: nat)
    requires |first| == 3 && |translation| == 3
    requires first[0].argument == "addEmptyDcaPalette" && first[1].argument == "category" && first[2].argument == "addTranslation"
    requires translation[0].argument == "language" && translation[1].argument == "translatedName" && translation[2].argument == "translatedDescription"
    requires first[1].question.required && translation[1].question.required && translation[2].question.required
    requires InterviewOf(first, translation, replies, pos).error.None?
    ensures var a := Assign(m, InterviewOf(first, translation, replies, pos).steps);
      && "addEmptyDcaPalette" in a && "category" in a && "addTranslation" in a
      && !Blank(a["category"])
      && (Truthy(a["addTranslation"]) ==>
            "language" in a && "translatedName" in a && !Blank(a["translatedName"])
            && "translatedDescription" in a && !Blank(a["translatedDescription"]))
  {
    var t := InterviewOf(first, translation, replies, pos);
    var r1 := Run(first, replies, pos);
    var s := t.steps;
    RunSpec(first, replies, pos);
    RunSpec(translation, replies, pos + 3);
    assert s[0].argument == "addEmptyDcaPalette" && s[1].argument == "category" && s[2].argument == "addTranslation";
    assert !Blank(s[1].value);
    if Truthy(r1.steps[2].value) {
      var r2 := Run(translation, replies, pos + 3);
      assert s == r1.steps + r2.steps;
      assert s[3] == r2.steps[0] && s[4] == r2.steps[1] && s[5] == r2.steps[2];
      assert |s| == 6;
      assert !Blank(s[4].value) && !Blank(s[5].value);
      AssignDistinct(m, s);
    } else {
      assert |s| == 3;
      AssignDistinct(m, s);
    }
  }

  /** When translations were not asked for, the interview ends after the
      three first questions and the translation arguments keep their
      values, or stay unset. */
  lemma InterviewOfSkipsTranslation(m: map<string, Value>, first: seq<Asked>, translation: seq<Asked>, replies: seq<Option<Value>>, pos: nat, name: string)
    requires |first| == 3
    requires first[0].argument == "addEmptyDcaPalette" && first[1].argument == "category" && first[2].argument == "addTranslation"
    requires forall i :: 0 <= i < |translation| ==> translation[i].argument != "addTranslation"
    requires name !in {"addEmptyDcaPalette", "category", "addTranslation"}
    requires InterviewOf(first, translation, replies, pos).error.None?
    ensures var a := Assign(m, InterviewOf(first, translation, replies, pos).steps);
      "addTranslation" in a && !Truthy(a["addTranslation"]) ==>
        && |InterviewOf(first, translation, replies, pos).steps| == 3
        && (name in a <==> name in m) && (name in m ==> a[name] == m[name])
  {
    var t := InterviewOf(first, translation, replies, pos);
    var r1 := Run(first, replies, pos);
    RunSpec(first, replies, pos);
    assert r1.steps == r1.steps[..2] + [r1.steps[2]];
    AssignAppend(m, r1.steps[..2], [r1.steps[2]]);
    AssignSingle(Assign(m, r1.steps[..2]), r1.steps[2]);
    if !Truthy(r1.steps[2].value) {
      assert t.steps == r1.steps;
      AssignOthers(m, r1.steps, name);
    } else {
      var r2 := Run(translation, replies, pos + 3);
      RunSpec(translation, replies, pos + 3);
      AssignAppend(m, r1.steps, r2.steps);
      AssignOthers(Assign(m, r1.steps), r2.steps, "addTranslation");
    }
  }

  /** An argument none of the questions is stored in keeps its value, or
      stays unset. */
  lemma InterviewOfFrame(m: map<string, Value>, first: seq<Asked>, translation: seq<Asked>, replies: seq<Option<Value>>, pos: nat, name: string)
    requires |first| == 3
    requires forall i :: 0 <= i < |first| ==> first[i].argument != name
    requires forall i :: 0 <= i < |translation| ==> translation[i].argument != name
    ensures var a := Assign(m, InterviewOf(first, translation, replies, pos).steps);
      (name in a <==> name in m) && (name in m ==> a[name] == m[name])
  {
    var t := InterviewOf(first, translation, replies, pos);
    var r1 := Run(first, replies, pos);
    RunSpec(first, replies, pos);
    if r1.error.None? && Truthy(r1.steps[2].value) {
      var r2 := Run(translation, replies, pos + 3);
      RunSpec(translation, replies, pos + 3);
      assert t.steps == r1.steps + r2.steps;
      forall k | 3 <= k < |t.steps| ensures t.steps[k].argument != name {
        assert t.steps[k] == r2.steps[k - 3];
      }
    }
    AssignOthers(m, t.steps, name);
  }

  /** The fragment makers' interview keeps these promises. */
  lemma InterviewOutcome(m: map<string, Value>, categories: seq<string>, replies: seq<Option<Value>>, pos: nat)
    requires Interview(categories, replies, pos).error.None?
    ensures var a := Assign(m, Interview(categories, replies, pos).steps);
      && "addEmptyDcaPalette" in a && "category" in a && "addTranslation" in a
      && !Blank(a["category"])
      && (Truthy(a["addTranslation"]) ==>
            "language" in a && "translatedName" in a && !Blank(a["translatedName"])
            && "translatedDescription" in a && !Blank(a["translatedDescription"]))
      && (!Truthy(a["addTranslation"]) ==>
            |Interview(categories, replies, pos).steps| == 3
            && forall name :: name in {"language", "translatedName", "translatedDescription"} ==>
                 (name in a <==> name in m) && (name in m ==> a[name] == m[name]))
  {
    var first := FirstQuestions(categories);
    InterviewOfOutcome(m, first, TranslationQuestions(), replies, pos);
    forall name | name in {"language", "translatedName", "translatedDescription"}
      ensures var a := Assign(m, Interview(categories, replies, pos).steps);
        !Truthy(a["addTranslation"]) ==>
          |Interview(categories, replies, pos).steps| == 3 && (name in a <==> name in m) && (name in m ==> a[name] == m[name])
    {
      InterviewOfSkipsTranslation(m, first, TranslationQuestions(), replies, pos, name);
    }
  }

  /** Each stored answer is what its reply stands for, the questions taken
      in order across both parts of the interview. */
  lemma InterviewOfAnswers(first: seq<Asked>, translation: seq<Asked>, replies: seq<Option<Value>>, pos: nat)
    requires |first| == 3
    ensures var t := InterviewOf(first, translation, replies, pos);
      forall k :: 0 <= k < |t.steps| ==>
        pos + k < |replies| && t.steps[k].value == ReplyValue((first + translation)[k].question, replies[pos + k])
  {
    var t := InterviewOf(first, translation, replies, pos);
    var r1 := Run(first, replies, pos);
    RunSpec(first, replies, pos);
    if r1.error.None? && Truthy(r1.steps[2].value) {
      var r2 := Run(translation, replies, pos + 3);
      RunSpec(translation, replies, pos + 3);
      assert t.steps == r1.steps + r2.steps;
      forall k | 3 <= k < |t.steps|
        ensures pos + k < |replies| && t.steps[k].value == ReplyValue((first + translation)[k].question, replies[pos + k])
      {
        assert t.steps[k] == r2.steps[k - 3];
        assert (first + translation)[k] == translation[k - 3];
      }
    }
  }

  /** A translation answer starting with `n` or `N` is no: the interview
      then ends after the first three questions, with every answer stored,
      whatever the palette answer was. */
  lemma AnsweredNoSkipsTranslation(categories: seq<string>, replies: seq<Option<Value>>, pos: nat, category: string, answer: string)
    requires pos + 2 < |replies|
    requires replies[pos + 1] == Some(Text(category)) && category != [] && category[0] !in TrimSpace
    requires replies[pos + 2] == Some(Text(answer)) && answer != [] && (answer[0] == 'n' || answer[0] == 'N')
    ensures var t := Interview(categories, replies, pos);
      && t.error.None? && |t.steps| == 3
      && t.steps[1] == Assignment("category", Text(Trim(category)))
      && t.steps[2] == Assignment("addTranslation", Flag(false))
  {
    TrimKeepsFirst(category);
    TrimKeepsFirst(answer);
    var first := FirstQuestions(categories);
    var r := Run(first, replies, pos);
    assert ReplyValue(first[1].question, replies[pos + 1]) == Text(Trim(category));
    assert ReplyValue(first[2].question, replies[pos + 2]) == Flag(false);
    assert r.error.None? by {
      assert Run(first[2..], replies, pos + 2).error.None?;
      assert first[1..][1..] == first[2..];
      assert Run(first[1..], replies, pos + 1).error.None?;
    }
    RunSpec(first, replies, pos);
  }

  /** An empty reply takes the question's default: yes to the palette and
      to translations, `en` as the language. */
  lemma InterviewDefaults(categories: seq<string>, replies: seq<Option<Value>>, pos: nat)
    ensures var t := Interview(categories, replies, pos);
      && (|t.steps| >= 1 ==> pos < |replies| && (replies[pos].None? ==> t.steps[0].value == Flag(true)))
      && (|t.steps| >= 3 ==> pos + 2 < |replies| && (replies[pos + 2].None? ==> t.steps[2].value == Flag(true)))
      && (|t.steps| >= 4 ==> pos + 3 < |replies| && (replies[pos + 3].None? ==> t.steps[3].value == Text("en")))
  {
    var qs := FirstQuestions(categories) + TranslationQuestions();
    InterviewOfAnswers(FirstQuestions(categories), TranslationQuestions(), replies, pos);
    assert qs[0].question.default == Flag(true);
    assert qs[2].question.default == Flag(true);
    assert qs[3].question.default == Text("en");
  }

  /** `getTemplateName($className)`: the class name after its last
      backslash, without a trailing `Controller`, underscored and prefixed.
      A class name without a backslash makes `strrchr` return false, which
      `ltrim` refuses under strict types. */
  function TemplateName(prefix: string, underscore: string -> string, className: string): (r: Result<string, string>)
    ensures r.Failure? <==> '\\' !in className
  {
    match Strrchr(className, '\\')
    case None => Failure(MissingSeparatorError)
    case Some(tail) =>
      var shortName := LTrim(tail, {'\\'});
      var base := if SubstrLast(shortName, 10) == "Controller" then shortName[..|shortName| - 10] else shortName;
      Success(prefix + "_" + underscore(base) + ".html5")
  }

  /** A controller class `Ns\XyzController` gets the template
      `<prefix>_<underscore(Xyz)>.html5`. */
  lemma TemplateNameOfController(prefix: string, underscore: string -> string, namespace: string, base: string)
    requires '\\' !in base
    ensures TemplateName(prefix, underscore, namespace + "\\" + base + "Controller") == Success(prefix + "_" + underscore(base) + ".html5")
  {
    var s := base + "Controller";
    assert '\\' !in s by {
      assert forall k :: 0 <= k < |s| ==> s[k] == (if k < |base| then base[k] else "Controller"[k - |base|]);
    }
    assert namespace + "\\" + base + "Controller" == namespace + ['\\'] + s;
    StrrchrLast(namespace, '\\', s);
    LTrimOne('\\', s);
    SubstrLastEndsWith(s, "Controller");
    assert s[..|s| - 10] == base;
  }

  /** A class whose short name does not end in `Controller` keeps it
      whole. */
  lemma TemplateNameOfOtherClass(prefix: string, underscore: string -> string, namespace: string, base: string)
    requires '\\' !in base && !EndsWith(base, "Controller")
    ensures TemplateName(prefix, underscore, namespace + "\\" + base) == Success(prefix + "_" + underscore(base) + ".html5")
  {
    assert namespace + "\\" + base == namespace + ['\\'] + base;
    StrrchrLast(namespace, '\\', base);
    LTrimOne('\\', base);
    SubstrLastEndsWith(base, "Controller");
  }

  /** `getExistingCategories()`: the keys of `$GLOBALS[$registryKey]`, in
      order; an unset registry is cast to an empty array. */
  function ExistingCategories(globals: map<string, seq<string>>, registryKey: string): (categories: seq<string>)
    ensures registryKey !in globals ==> categories == []
    ensures registryKey in globals ==> categories == globals[registryKey]
  {
    if registryKey in globals then globals[registryKey] else []
  }
}
