/**
 * The question-and-answer command: the trimmed question and an optional
 * context are put into the shared QnA template and sent to the text model
 * with the shared QnA system prompt.
 */
module QnaTemplate {
  import opened Wrappers
  import opened Text
  import opened Json
  import opened OpenRouter
  import opened ModulePrompt

  const MissingQuestionPromptError: string := "Question is required to build a QnA prompt."
  const MissingQuestionError: string := "Question is required for QnA generation."
  const NoneSection: string := "none"

  /** `value?.trim() ? value.trim() : 'none'`, used for the context and the
      answer preference. */
  function SectionOrNone(v: Option<string>): (r: string)
    ensures r != "" && TrimEdges(r)
    ensures v.Some? && Trim(v.value) != "" ==> r == Trim(v.value)
    ensures (v.None? || Trim(v.value) == "") ==> r == NoneSection
  {
    if v.Some? && Trim(v.value) != "" then
      TrimEdgesHold(v.value);
      Trim(v.value)
    else
      assert NoneSection[0] == 'n' && NoneSection[|NoneSection| - 1] == 'e';
      NoneSection
  }

  /** `buildQnAPrompt`: three `replace` calls, each on the first occurrence. */
  function BuildQnAPrompt(question: string, context: Option<string>, askPreference: Option<string>): (r: Result<string>)
    ensures r.Err? <==> Trim(question) == ""
    ensures r.Err? ==> r.error == MissingQuestionPromptError
  {
    var q := Trim(question);
    if q == "" then Err(MissingQuestionPromptError)
    else
      var withQuestion := ReplaceFirst(QnaPromptTemplate, QuestionPlaceholder, q);
      var withContext := ReplaceFirst(withQuestion, ContextSectionPlaceholder, SectionOrNone(context));
      Ok(ReplaceFirst(withContext, AskPrefPlaceholder, SectionOrNone(askPreference)))
  }

  /** Filling two brace-led slots with brace-free text, then looking for a
      third brace-led pattern, which no longer occurs. */
  lemma FillTwoSlots(a: string, x: string, m: string, y: string, b: string, z: string,
                     q: string, c: string, w: string)
    requires x != [] && y != [] && z != [] && x[0] == '{' && y[0] == '{' && z[0] == '{'
    requires '{' !in a && '{' !in m && '{' !in b && '{' !in q && '{' !in c
    ensures ReplaceFirst(ReplaceFirst(ReplaceFirst(a + x + m + y + b, x, q), y, c), z, w) == a + q + m + c + b
  {
    assert a + x + m + y + b == a + x + (m + y + b);
    ReplaceSlot(a, x, m + y + b, q);
    assert a + q + (m + y + b) == (a + q + m) + y + b;
    assert '{' !in a + q + m;
    ReplaceSlot(a + q + m, y, b, c);
    var s := a + q + m + c + b;
    assert '{' !in s;
    NoOccurrenceWithoutFirstChar(s, z);
    ReplaceFirstSplit(s, z, w);
  }

  /** For a question and context without `{`, the prompt is the template with
      the question and the context section in their slots, and the answer
      preference takes no part. */
  lemma QnaPromptFilled(question: string, context: Option<string>, askPreference: Option<string>)
    requires Trim(question) != ""
    requires '{' !in Trim(question) && '{' !in SectionOrNone(context)
    ensures BuildQnAPrompt(question, context, askPreference)
      == Ok(QuestionLinePrefix + Trim(question) + ContextLinePrefix() + SectionOrNone(context) + QnaTemplateTail())
  {
    QnaTemplateShape();
    QnaTailHasNoBrace();
    QnaPlaceholdersWellFormed();
    FillTwoSlots(QuestionLinePrefix, QuestionPlaceholder, ContextLinePrefix(), ContextSectionPlaceholder,
      QnaTemplateTail(), AskPrefPlaceholder, Trim(question), SectionOrNone(context), SectionOrNone(askPreference));
  }

  /** Hence, for such inputs, two answer preferences give the same prompt. */
  lemma QnaPreferenceIgnored(question: string, context: Option<string>, p1: Option<string>, p2: Option<string>)
    requires '{' !in Trim(question) && '{' !in SectionOrNone(context)
    ensures BuildQnAPrompt(question, context, p1) == BuildQnAPrompt(question, context, p2)
  {
    if Trim(question) != "" {
      QnaPromptFilled(question, context, p1);
      QnaPromptFilled(question, context, p2);
    }
  }

  /** After the first slot holds a placeholder `z` other than `y`, the
      first occurrence of `y` is still its own slot. */
  lemma SecondSlotStillFirst(a: string, z: string, m: string, y: string, b: string, c: string)
    requires IsPlaceholder(y) && IsPlaceholder(z) && z[2] != y[2]
    requires '{' !in a && '{' !in m && '{' !in b
    ensures ReplaceFirst(a + z + m + y + b, y, c) == a + z + m + c + b
  {
    PlaceholderOccurrences(a, z, m, y, b, y);
    var s := a + z + m + y + b;
    assert forall j :: 0 <= j < |a + z + m| ==> !At(s, y, j);
    ReplaceFirstAt(a + z + m, y, b, c);
  }

  /** Filling the first slot with a third placeholder `z`, the second with
      brace-free text, and then `z` itself: the third fill lands in the first
      slot. */
  lemma FillSlotWithPlaceholder(a: string, x: string, m: string, y: string, b: string, z: string,
                                c: string, w: string)
    requires IsPlaceholder(x) && IsPlaceholder(y) && IsPlaceholder(z) && z[2] != y[2]
    requires '{' !in a && '{' !in m && '{' !in b && '{' !in c
    ensures ReplaceFirst(ReplaceFirst(ReplaceFirst(a + x + m + y + b, x, z), y, c), z, w) == a + w + m + c + b
  {
    ReplaceFirstSlotOfFive(a, x, m, y, b, z);
    SecondSlotStillFirst(a, z, m, y, b, c);
    ReplaceFirstSlotOfFive(a, z, m, c, b, w);
  }

  lemma AskPrefPlaceholderTrimmed()
    ensures Trim(AskPrefPlaceholder) == AskPrefPlaceholder
    ensures AskPrefPlaceholder[2] != ContextSectionPlaceholder[2]
  {
    assert AskPrefPlaceholder[0] == '{' && AskPrefPlaceholder[|AskPrefPlaceholder| - 1] == '}';
    TrimOfTrimmed(AskPrefPlaceholder);
  }

  /** A question that itself holds `{{ASK_PREF}}` lets the preference in:
      the third `replace` finds the placeholder the first one inserted. */
  lemma QnaPreferenceReachesQuestion(context: Option<string>, pref: string)
    requires '{' !in SectionOrNone(context) && Trim(pref) != ""
    ensures BuildQnAPrompt(AskPrefPlaceholder, context, Some(pref))
      == Ok(QuestionLinePrefix + Trim(pref) + ContextLinePrefix() + SectionOrNone(context) + QnaTemplateTail())
  {
    QnaTemplateShape();
    QnaTailHasNoBrace();
    QnaPlaceholdersWellFormed();
    AskPrefPlaceholderTrimmed();
    FillSlotWithPlaceholder(QuestionLinePrefix, QuestionPlaceholder, ContextLinePrefix(), ContextSectionPlaceholder,
      QnaTemplateTail(), AskPrefPlaceholder, SectionOrNone(context), Trim(pref));
  }

  /** `generateQnAResponse`: the question is checked first, then the client;
      pre-trimming the question does not change the prompt sent with the
      QnA system prompt. */
  function GenerateQnAResponse(c: OpenRouterClient, question: string, context: Option<string>,
                               askPreference: Option<string>, provider: Provider,
                               parseJson: string -> Option<JsonValue>): (r: Result<string>)
    ensures Trim(question) == "" ==> r == Err(MissingQuestionError)
    ensures Trim(question) != "" && !IsEnabled(c) ==> r == Err(DisabledClientError)
    ensures Trim(question) != "" && IsEnabled(c) ==>
      BuildQnAPrompt(question, context, askPreference).Ok?
      && r == GenerateText(c, BuildQnAPrompt(question, context, askPreference).value, QnaSystemPrompt, provider, parseJson)
  {
    var q := Trim(question);
    if q == "" then Err(MissingQuestionError)
    else if !IsEnabled(c) then Err(DisabledClientError)
    else
      TrimIdempotent(question);
      GenerateText(c, BuildQnAPrompt(q, context, askPreference).value, QnaSystemPrompt, provider, parseJson)
  }
}
