/**
 * The science-brief command: a topic, trimmed, is put into a fixed markdown
 * brief template and sent to the text model with this module's own system
 * prompt.
 */
module ScienceBrief {
  import opened Wrappers
  import opened Text
  import opened Json
  import opened OpenRouter

  /** `SCIENCE_SYSTEM_PROMPT` of the science-brief module. */
  const BriefSystemPrompt: string :=
    "Summarize consensus of high-quality evidence (RCTs, meta-analyses). Avoid absolute claims. No magic hacks."

  const TopicPlaceholder: string := "{{TOPIC}}"

  /** The template text before `{{TOPIC}}`: it opens with a newline. */
  const BriefHead: string := "\nYou are preparing " + "a short science brief about **"

  /** The template lines after `{{TOPIC}}`; the last, empty, one gives the
      closing newline. */
  const BriefTailLines: seq<string> := [
    "**.",
    "",
    "Requirements:",
    "- Cite only high-quality evidence (RCTs, meta-analyses, umbrella reviews).",
    "- Use neutral language, highlight consensus first, then unknowns.",
    "- Output must use markdown with EXACTLY these sections and bullet counts.",
    "",
    "Format:",
    "## Evidence",
    "- 2-3 concise bullets that summarize what studies show.",
    "",
    "## Uncertainties",
    "- 1-2 bullets on what remains unclear, conflicting, or under-studied.",
    "",
    "## Practical Takeaways",
    "- 3 numbered bullets with pragmatic guidance grounded in the evidence.",
    ""]

  function BriefTail(): string {
    Join(BriefTailLines, "\n")
  }

  /** `SCIENCE_PROMPT_TEMPLATE` of the science-brief module. */
  function BriefTemplate(): string {
    BriefHead + TopicPlaceholder + BriefTail()
  }

  const MissingTopicPromptError: string := "Topic is required to build a science brief prompt."
  const MissingTopicError: string := "Topic is required for science brief generation."

  lemma BriefHeadHasNoBrace()
    ensures '{' !in BriefHead
  {
    assert '{' !in "\nYou are preparing ";
    assert '{' !in "a short science brief about **";
  }

  /** `buildScienceBriefPrompt`. */
  function BuildScienceBriefPrompt(topic: string): (r: Result<string>)
    ensures r.Err? <==> Trim(topic) == ""
    ensures r.Err? ==> r.error == MissingTopicPromptError
    ensures r.Ok? ==> r.value == BriefHead + Trim(topic) + BriefTail()
  {
    var t := Trim(topic);
    if t == "" then Err(MissingTopicPromptError)
    else
      BriefHeadHasNoBrace();
      ReplaceSlot(BriefHead, TopicPlaceholder, BriefTail(), t);
      Ok(ReplaceFirst(BriefTemplate(), TopicPlaceholder, t))
  }

  /** The topic can be read back out of the prompt, between the fixed head
      and tail. */
  lemma BriefTopicRecoverable(topic: string)
    requires BuildScienceBriefPrompt(topic).Ok?
    ensures var p := BuildScienceBriefPrompt(topic).value;
      |p| == |BriefHead| + |Trim(topic)| + |BriefTail()|
      && p[|BriefHead|..|p| - |BriefTail()|] == Trim(topic)
  {
    var p := BuildScienceBriefPrompt(topic).value;
    assert p == BriefHead + Trim(topic) + BriefTail();
    assert p[|BriefHead|..|p| - |BriefTail()|] == Trim(topic);
  }

  /** Surrounding white space of the topic does not change the prompt. */
  lemma BriefPromptTrimInvariant(topic: string)
    ensures BuildScienceBriefPrompt(Trim(topic)) == BuildScienceBriefPrompt(topic)
  {
    TrimIdempotent(topic);
  }

  /** `generateScienceBrief`: the topic is checked first, then the client,
      then the brief prompt goes out with this module's system prompt. */
  function GenerateScienceBrief(c: OpenRouterClient, topic: string,
                                provider: Provider, parseJson: string -> Option<JsonValue>): (r: Result<string>)
    ensures Trim(topic) == "" ==> r == Err(MissingTopicError)
    ensures Trim(topic) != "" && !IsEnabled(c) ==> r == Err(DisabledClientError)
    ensures Trim(topic) != "" && IsEnabled(c) ==>
      r == GenerateText(c, BriefHead + Trim(topic) + BriefTail(), BriefSystemPrompt, provider, parseJson)
  {
    var t := Trim(topic);
    if t == "" then Err(MissingTopicError)
    else if !IsEnabled(c) then Err(DisabledClientError)
    else
      BriefPromptTrimInvariant(topic);
      GenerateText(c, BuildScienceBriefPrompt(t).value, BriefSystemPrompt, provider, parseJson)
  }
}
