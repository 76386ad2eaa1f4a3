/**
 * The shared prompt library: the slash-command names and, per feature, a
 * system prompt and a user template. Every prompt is its lines joined by
 * newlines. The lemmas pin down which `{{...}}` placeholders each template
 * holds, which decides what the `replace` calls elsewhere can change.
 */
module ModulePrompt {
  import opened Wrappers
  import opened Text

  datatype CommandKey = Calories | Science | Summary | Qna

  /** `COMMANDS`. */
  function Command(k: CommandKey): (r: string)
    ensures |r| >= 2 && r[0] == '/'
  {
    match k
    case Calories => "/calories"
    case Science => "/science"
    case Summary => "/summary"
    case Qna => "/ask"
  }

  /** Each command has its own trigger. */
  lemma CommandsDistinct(a: CommandKey, b: CommandKey)
    ensures Command(a) == Command(b) <==> a == b
  {
    if a != b {
      assert Command(a)[2] != Command(b)[2];
    }
  }

  // ---------------------------------------------------------------------------
  // Chat summary
  // ---------------------------------------------------------------------------

  const SummarySystemLines: seq<string> := [
    "Write a short WhatsApp recap of the last 24 hours of chat.",
    "Be accurate, not speculative. Optimize for what to do next.",
    "Constraints:",
    "* Keep under ~1200 characters.",
    "* No invented facts. If unclear, say \"not specified\".",
    "* Action items max 5 bullets. Open questions max 3 bullets.",
    "* Use simple WhatsApp formatting (short lines).",
    "Safety:",
    "* If urgent issues appeared, flag as \"Needs medical attention\" in open questions/action items without diagnosing."]

  const SummarySystemPrompt: string := Join(SummarySystemLines, "\n")

  const TranscriptPlaceholder: string := "{{TRANSCRIPT}}"
  const SummaryPrefPlaceholder: string := "{{SUMMARY_PREF}}"
  const ContextBlockPlaceholder: string := "{{CONTEXT_BLOCK}}"

  /** The template lines before the transcript placeholder. */
  const SummaryTemplateHeadLines: seq<string> := [
    "Summarize:",
    "Overview (2\U{2013}3 lines)",
    "Action items (max 5 bullets, owner if clear)",
    "Open questions (max 3 bullets)",
    "",
    "Transcript:"]

  const SummaryTemplateLines: seq<string> := SummaryTemplateHeadLines + [TranscriptPlaceholder]

  const SummaryPromptTemplate: string := Join(SummaryTemplateLines, "\n")

  /** The text before the placeholder, up to and including the newline. */
  function SummaryTemplateHead(): string {
    Join(SummaryTemplateHeadLines, "\n") + "\n"
  }

  lemma SummaryTemplateShape()
    ensures SummaryPromptTemplate == SummaryTemplateHead() + TranscriptPlaceholder
  {
    JoinSnoc(SummaryTemplateHeadLines, TranscriptPlaceholder, "\n");
  }

  lemma SummaryHeadLinesLackBraceFirst()
    ensures '{' !in SummaryTemplateHeadLines[0] && '{' !in SummaryTemplateHeadLines[1]
  {
  }

  lemma SummaryHeadLineLacksBrace()
    ensures '{' !in SummaryTemplateHeadLines[2]
  {
  }

  lemma SummaryHeadLinesLackBraceLast()
    ensures '{' !in SummaryTemplateHeadLines[3] && '{' !in SummaryTemplateHeadLines[4]
      && '{' !in SummaryTemplateHeadLines[5]
  {
  }

  /** No placeholder starts before the transcript one. */
  lemma SummaryHeadHasNoBrace()
    ensures '{' !in SummaryTemplateHead()
  {
    SummaryHeadLinesLackBraceFirst();
    SummaryHeadLineLacksBrace();
    SummaryHeadLinesLackBraceLast();
    JoinFree(SummaryTemplateHeadLines, "\n", '{');
  }

  /** `SUMMARY_PROMPT_TEMPLATE` ends with its only `{{TRANSCRIPT}}`. */
  lemma SummaryTemplateTranscriptOnce()
    ensures SummaryPromptTemplate == SummaryTemplateHead() + TranscriptPlaceholder
    ensures IndexOf(SummaryPromptTemplate, TranscriptPlaceholder) == Some(|SummaryTemplateHead()|)
    ensures forall k :: At(SummaryPromptTemplate, TranscriptPlaceholder, k) ==> k == |SummaryTemplateHead()|
  {
    SummaryTemplateShape();
    SummaryHeadHasNoBrace();
    OnlyAtEnd(SummaryTemplateHead(), TranscriptPlaceholder);
    FirstOccurrenceAfter(SummaryTemplateHead(), TranscriptPlaceholder, "");
    assert SummaryPromptTemplate == SummaryTemplateHead() + TranscriptPlaceholder + "";
  }

  /** `SUMMARY_PROMPT_TEMPLATE` holds neither `{{SUMMARY_PREF}}` nor
      `{{CONTEXT_BLOCK}}`: both are longer than the only placeholder it has. */
  lemma SummaryTemplateLacksOtherPlaceholders()
    ensures !Contains(SummaryPromptTemplate, SummaryPrefPlaceholder)
    ensures !Contains(SummaryPromptTemplate, ContextBlockPlaceholder)
  {
    SummaryTemplateShape();
    SummaryHeadHasNoBrace();
    NoLongOccurrenceAfter(SummaryTemplateHead(), TranscriptPlaceholder, SummaryPrefPlaceholder);
    NoLongOccurrenceAfter(SummaryTemplateHead(), TranscriptPlaceholder, ContextBlockPlaceholder);
  }

  // ---------------------------------------------------------------------------
  // QnA
  // ---------------------------------------------------------------------------

  const QnaSystemLines: seq<string> := [
    "You are a WhatsApp fitness, nutrition, and wellbeing coach. Be practical, safe, and brief.",
    "Goal: help the user take the next best action today.",
    "Constraints (hard):",
    "* Keep the entire reply \U{2264}8 short lines.",
    "* No long paragraphs. Prefer compact bullets.",
    "* Ask max 1 question, only if it changes the recommendation.",
    "* No diagnosis, no medical certainty.",
    "* No shaming language. No extreme dieting advice.",
    "* Use metric units (kg, cm) and grams for macros.",
    "* If the user asks for a plan, give a minimal plan that fits WhatsApp.",
    "Safety guardrails (must follow):",
    "* Urgent symptoms \U{2192} advise urgent local care immediately: chest pain/pressure, fainting, severe shortness of breath, one-sided weakness, confusion, severe allergic reaction, uncontrolled bleeding.",
    "* Injury/pain: provide general modifications + \"stop if sharp pain\" + consider a clinician/physio if persistent/worsening.",
    "* Minors/pregnancy/complex conditions/medications: be cautious; recommend professional guidance for major changes.",
    "* Eating disorder signals (e.g., \"how to eat <800 kcal\", \"purging\", extreme fear of food): respond gently, avoid numbers-heavy restriction, encourage seeking qualified help."]

  const QnaSystemPrompt: string := Join(QnaSystemLines, "\n")

  const QuestionPlaceholder: string := "{{QUESTION}}"
  const ContextSectionPlaceholder: string := "{{CONTEXT_SECTION}}"
  const AskPrefPlaceholder: string := "{{ASK_PREF}}"

  /** The lines after the two placeholder lines. */
  const QnaTemplateTailLines: seq<string> := [
    "",
    "Reply with:",
    "1. Direct answer (1\U{2013}2 lines)",
    "2. Next steps (2\U{2013}4 short bullets)",
    "3. 1 question (only if required)"]

  const QuestionLinePrefix: string := "User: "
  const ContextLabel: string := "Context: "

  /** The newline ending the question line, then the context label. */
  function ContextLinePrefix(): string {
    "\n" + ContextLabel
  }

  const QnaTemplateLines: seq<string> :=
    [QuestionLinePrefix + QuestionPlaceholder, ContextLabel + ContextSectionPlaceholder] + QnaTemplateTailLines

  const QnaPromptTemplate: string := Join(QnaTemplateLines, "\n")

  /** The text after the context placeholder, from its newline on. */
  function QnaTemplateTail(): string {
    "\n" + Join(QnaTemplateTailLines, "\n")
  }

  lemma QnaTailLinesLackBraceFirst()
    ensures '{' !in QnaTemplateTailLines[0] && '{' !in QnaTemplateTailLines[1]
      && '{' !in QnaTemplateTailLines[2]
  {
  }

  lemma QnaTailLinesLackBraceLast()
    ensures '{' !in QnaTemplateTailLines[3] && '{' !in QnaTemplateTailLines[4]
  {
  }

  /** No placeholder follows the context one. */
  lemma QnaTailHasNoBrace()
    ensures '{' !in QnaTemplateTail()
  {
    QnaTailLinesLackBraceFirst();
    QnaTailLinesLackBraceLast();
    JoinFree(QnaTemplateTailLines, "\n", '{');
  }

  /** `QNA_PROMPT_TEMPLATE` is the question line, the context line, then the
      fixed reply instructions. */
  lemma QnaTemplateShape()
    ensures QnaPromptTemplate
      == QuestionLinePrefix + QuestionPlaceholder + ContextLinePrefix() + ContextSectionPlaceholder + QnaTemplateTail()
  {
    JoinTwoLines(QuestionLinePrefix, QuestionPlaceholder, ContextLabel, ContextSectionPlaceholder, QnaTemplateTailLines, "\n");
  }

  lemma QnaPlaceholdersWellFormed()
    ensures IsPlaceholder(QuestionPlaceholder) && IsPlaceholder(ContextSectionPlaceholder)
      && IsPlaceholder(AskPrefPlaceholder)
    ensures '{' !in QuestionLinePrefix && '{' !in ContextLinePrefix()
  {
  }

  /** `QNA_PROMPT_TEMPLATE` holds `{{QUESTION}}` first, right after `User: `,
      and `{{CONTEXT_SECTION}}` after the context label. */
  lemma QnaTemplateSlots()
    ensures IndexOf(QnaPromptTemplate, QuestionPlaceholder) == Some(|QuestionLinePrefix|)
    ensures Contains(QnaPromptTemplate, ContextSectionPlaceholder)
  {
    QnaTemplateShape();
    QnaPlaceholdersWellFormed();
    TwoSlotsLocated(QuestionLinePrefix, QuestionPlaceholder, ContextLinePrefix(), ContextSectionPlaceholder, QnaTemplateTail());
  }

  /** Each of `{{QUESTION}}` and `{{CONTEXT_SECTION}}` occurs only at its
      slot, and `{{ASK_PREF}}` does not occur in `QNA_PROMPT_TEMPLATE`. */
  lemma QnaTemplateOccurrences()
    ensures forall k :: At(QnaPromptTemplate, QuestionPlaceholder, k) ==> k == |QuestionLinePrefix|
    ensures forall k :: At(QnaPromptTemplate, ContextSectionPlaceholder, k) ==>
      k == |QuestionLinePrefix| + |QuestionPlaceholder| + |ContextLinePrefix()|
    ensures !Contains(QnaPromptTemplate, AskPrefPlaceholder)
  {
    QnaTemplateShape();
    QnaTailHasNoBrace();
    QnaPlaceholdersWellFormed();
    var a, m, b := QuestionLinePrefix, ContextLinePrefix(), QnaTemplateTail();
    PlaceholderOccurrences(a, QuestionPlaceholder, m, ContextSectionPlaceholder, b, QuestionPlaceholder);
    PlaceholderOccurrences(a, QuestionPlaceholder, m, ContextSectionPlaceholder, b, ContextSectionPlaceholder);
    PlaceholderOccurrences(a, QuestionPlaceholder, m, ContextSectionPlaceholder, b, AskPrefPlaceholder);
  }

  // ---------------------------------------------------------------------------
  // Calorie estimator
  // ---------------------------------------------------------------------------

  const CalorieSystemLines: seq<string> := [
    "You estimate calories and macros from a meal photo and/or text description.",
    "Be realistic and use ranges.",
    "Output ONLY JSON. No extra text.",
    "Constraints (hard):",
    "* Output valid JSON only.",
    "* Use ranges, not single values.",
    "* Estimate the whole meal total unless user asks per-item.",
    "* If the image/text is unclear, widen ranges and state why in notes.uncertainty.",
    "* Do not moralize food. Do not give restrictive dieting coaching here.",
    "Safety guardrails (must follow):",
    "* If user shows disordered eating intent, include a brief note in notes.uncertainty (e.g., \"may not be helpful to track this precisely\") and keep estimates broad.",
    "* If the user asks for unsafe restriction, do not comply; keep neutral and suggest safer alternatives in notes.assumptions (still JSON-only)."]

  const CalorieSystemPrompt: string := Join(CalorieSystemLines, "\n")

  const CaptionLinePlaceholder: string := "{{CAPTION_LINE}}"

  /** The JSON shape the template asks for: calories as numbers, macros as
      `{low, high}` objects and notes as an object of lists. */
  const CalorieTemplateShapeLines: seq<string> := [
    "",
    "Output JSON only:",
    "{",
    "\"kcal_low\": int,",
    "\"kcal_high\": int,",
    "\"protein_g\": { \"low\": int, \"high\": int },",
    "\"carbs_g\": { \"low\": int, \"high\": int },",
    "\"fat_g\": { \"low\": int, \"high\": int },",
    "\"notes\": {",
    "\"assumptions\": [string],",
    "\"uncertainty\": [string]",
    "}",
    "}"]

  const CaptionLabel: string := "Caption: "

  const CalorieTemplateFirstLine: string := "Estimate totals for the whole meal shown/described. Use ranges."

  const CalorieTemplateLines: seq<string> :=
    [CalorieTemplateFirstLine, CaptionLabel + CaptionLinePlaceholder] + CalorieTemplateShapeLines

  const CaloriePromptTemplate: string := Join(CalorieTemplateLines, "\n")

  /** `CALORIE_PROMPT_TEMPLATE` holds `{{CAPTION_LINE}}` on its second line. */
  lemma CalorieTemplateHasCaption()
    ensures Contains(CaloriePromptTemplate, CaptionLinePlaceholder)
  {
    var shape := "\n" + Join(CalorieTemplateShapeLines, "\n");
    JoinSecondLine(CalorieTemplateFirstLine, CaptionLabel, CaptionLinePlaceholder, CalorieTemplateShapeLines, "\n");
    ContainsDisplayed(CalorieTemplateFirstLine + "\n" + CaptionLabel, CaptionLinePlaceholder, shape);
  }

  /** `CALORIE_PROMPT_TEMPLATE` asks for the macros as `{low, high}` objects
      and for the notes as an object, unlike the flat record the parser reads. */
  lemma CalorieTemplateNestedShape()
    ensures Contains(CaloriePromptTemplate, CalorieTemplateLines[7])
    ensures CalorieTemplateLines[7] == "\"protein_g\": { \"low\": int, \"high\": int },"
    ensures Contains(CaloriePromptTemplate, CalorieTemplateLines[10])
    ensures CalorieTemplateLines[10] == "\"notes\": {"
  {
    JoinContainsPart(CalorieTemplateLines, 7, "\n");
    JoinContainsPart(CalorieTemplateLines, 10, "\n");
  }

  // ---------------------------------------------------------------------------
  // Science brief
  // ---------------------------------------------------------------------------

  const ScienceSystemLines: seq<string> := [
    "Summarize consensus from high-quality evidence (meta-analyses, umbrella reviews, large RCTs when possible).",
    "Neutral tone. No magic hacks.",
    "Constraints (hard):",
    "* Keep it scannable for WhatsApp.",
    "* No absolute claims (\"always\", \"never\").",
    "* Do not invent citations. If you cannot access specific papers, say so once, briefly.",
    "* Prefer practical magnitude/typical effects when known (e.g., \"small/moderate benefit\") without overstating certainty.",
    "Safety guardrails (must follow):",
    "* If topic involves supplements/drugs: mention common contraindications or \"check with clinician if you have X condition/meds\" in Practical.",
    "* If user context suggests risk (pregnancy, kidney disease, anticoagulants, etc.), highlight caution."]

  /** The library's science system prompt; the science-brief command uses a
      different one of its own. */
  const ScienceSystemPrompt: string := Join(ScienceSystemLines, "\n")

  const TopicPlaceholder: string := "{{TOPIC}}"

  const TopicLinePrefix: string := "Topic: "

  const ScienceTemplateTailLines: seq<string> := [
    "",
    "Send exactly:",
    "Evidence:",
    "",
    "* (2\U{2013}3 bullets)",
    "",
    "Uncertainties:",
    "",
    "* (1\U{2013}2 bullets)",
    "",
    "Practical:",
    "",
    "1. ...",
    "2. ...",
    "3. ..."]

  const ScienceTemplateLines: seq<string> :=
    [TopicLinePrefix + TopicPlaceholder, ContextLabel + ContextSectionPlaceholder] + ScienceTemplateTailLines

  const SciencePromptTemplate: string := Join(ScienceTemplateLines, "\n")

  /** `SCIENCE_PROMPT_TEMPLATE` holds `{{TOPIC}}` and, on the next line,
      `{{CONTEXT_SECTION}}`. */
  lemma ScienceTemplatePlaceholders()
    ensures Contains(SciencePromptTemplate, TopicPlaceholder)
    ensures Contains(SciencePromptTemplate, ContextSectionPlaceholder)
  {
    JoinedSlots(TopicLinePrefix, TopicPlaceholder, ContextLabel, ContextSectionPlaceholder, ScienceTemplateTailLines, "\n");
  }
}
