/**
 * The chat-summary command: recent messages are picked from the fetched
 * history, rendered as a transcript that keeps at most its last 9000
 * characters, put into the summary template and sent to the text model; one
 * reply goes back to the chat.
 */
module ChatSummary {
  import opened Wrappers
  import opened Text
  import opened Json
  import opened OpenRouter
  import opened ModulePrompt
  import opened Sorting

  const DefaultLookbackMs: int := 24 * 60 * 60 * 1000
  const DefaultMaxMessages: int := 50
  const MaxPromptChars: nat := 9000

  const NoMessagesNotice: string := "\U{2139}\U{FE0F} No messages from the last 24 hours to summarize."
  const SummaryHeader: string := "\U{1F4DD} *Last 24h Summary*\n"
  const FailureNotice: string := "\U{26A0}\U{FE0F} Unable to generate the chat summary right now. Please try again later."
  const UnknownTime: string := "unknown-time"
  const MediaBody: string := "[media message]"
  const NoTextBody: string := "[no text]"
  const NoPreference: string := "not provided"

  /** The fields of a fetched message the summary reads. A timestamp is in
      seconds; `_data.notifyName` and `_data.pushname` are the sender's
      display names. */
  datatype ChatMessage = ChatMessage(
    timestamp: Option<int>,
    fromMe: bool,
    notifyName: Option<string>,
    pushname: Option<string>,
    author: Option<string>,
    from: Option<string>,
    body: Option<string>,
    hasMedia: bool)

  // ---------------------------------------------------------------------------
  // Whitespace collapsing
  // ---------------------------------------------------------------------------

  /** Every white-space character is a plain space and no two are adjacent. */
  predicate Collapsed(s: string) {
    (forall i :: 0 <= i < |s| && IsSpace(s[i]) ==> s[i] == ' ')
    && (forall i :: 0 <= i < |s| - 1 ==> !(IsSpace(s[i]) && IsSpace(s[i + 1])))
  }

  /** The non-white-space characters of `s`, in order. */
  function Solid(s: string): string {
    if s == [] then []
    else (if IsSpace(s[0]) then [] else [s[0]]) + Solid(s[1..])
  }

  lemma {:induction false} SolidConcat(a: string, b: string)
    ensures Solid(a + b) == Solid(a) + Solid(b)
  {
    if a != [] {
      assert (a + b)[0] == a[0];
      assert (a + b)[1..] == a[1..] + b;
      SolidConcat(a[1..], b);
      var h := if IsSpace(a[0]) then [] else [a[0]];
      assert Solid(a + b) == h + Solid(a[1..] + b);
      assert Solid(a) == h + Solid(a[1..]);
    } else {
      assert a + b == b;
    }
  }

  lemma {:induction false} SolidOfSpace(s: string)
    requires AllSpace(s)
    ensures Solid(s) == []
  {
    if s != [] {
      SolidOfSpace(s[1..]);
    }
  }

  lemma SolidOfTrimStart(s: string)
    ensures Solid(TrimStart(s)) == Solid(s)
  {
    var r := TrimStart(s);
    assert s == s[..|s| - |r|] + r;
    SolidConcat(s[..|s| - |r|], r);
    SolidOfSpace(s[..|s| - |r|]);
  }

  lemma SolidOfTrimEnd(s: string)
    ensures Solid(TrimEnd(s)) == Solid(s)
  {
    var r := TrimEnd(s);
    assert s == r + s[|r|..];
    SolidConcat(r, s[|r|..]);
    SolidOfSpace(s[|r|..]);
  }

  /** Trimming drops only white space. */
  lemma SolidOfTrim(s: string)
    ensures Solid(Trim(s)) == Solid(s)
  {
    SolidOfTrimStart(s);
    SolidOfTrimEnd(TrimStart(s));
  }

  /** `value.replace(/\s+/g, ' ')`: every maximal run of white space becomes
      one space; everything else is kept. */
  function CollapseSpace(s: string): (r: string)
    ensures Collapsed(r)
    ensures r == [] <==> s == []
    ensures r != [] ==> (IsSpace(r[0]) <==> IsSpace(s[0]))
    ensures Solid(r) == Solid(s)
  {
    CollapseRunsShape(s);
    CollapseRuns(s)
  }

  /** The left-to-right scan behind `CollapseSpace`: a white-space character
      starts a run that is replaced by one space, any other character is
      copied. */
  function CollapseRuns(s: string): string
    decreases |s|
  {
    if s == [] then []
    else if IsSpace(s[0]) then
      assert |TrimStart(s)| < |s|;
      " " + CollapseRuns(TrimStart(s))
    else [s[0]] + CollapseRuns(s[1..])
  }

  lemma {:induction false} CollapseRunsShape(s: string)
    ensures Collapsed(CollapseRuns(s))
    ensures CollapseRuns(s) == [] <==> s == []
    ensures CollapseRuns(s) != [] ==> (IsSpace(CollapseRuns(s)[0]) <==> IsSpace(s[0]))
    ensures Solid(CollapseRuns(s)) == Solid(s)
    decreases |s|
  {
    if s != [] {
      if IsSpace(s[0]) {
        var t := TrimStart(s);
        var rest := CollapseRuns(t);
        CollapseRunsShape(t);
        SolidOfTrimStart(s);
        assert Solid(" " + rest) == Solid(rest) by {
          assert (" " + rest)[1..] == rest;
        }
        CollapsedCons(' ', rest);
      } else {
        var rest := CollapseRuns(s[1..]);
        CollapseRunsShape(s[1..]);
        assert Solid([s[0]] + rest) == [s[0]] + Solid(rest) by {
          assert ([s[0]] + rest)[1..] == rest;
        }
        CollapsedCons(s[0], rest);
      }
    }
  }

  /** One more character in front keeps a text collapsed when it is a
      non-space character, or a plain space before a non-space one. */
  lemma CollapsedCons(c: char, rest: string)
    requires Collapsed(rest)
    requires !IsSpace(c) || (c == ' ' && (rest == [] || !IsSpace(rest[0])))
    ensures Collapsed([c] + rest)
  {
    var s := [c] + rest;
    forall i | 0 <= i < |s| && IsSpace(s[i]) ensures s[i] == ' ' {
      if i > 0 {
        assert s[i] == rest[i - 1];
      }
    }
    forall i | 0 <= i < |s| - 1 ensures !(IsSpace(s[i]) && IsSpace(s[i + 1])) {
      assert s[i + 1] == rest[i];
      if i > 0 {
        assert s[i] == rest[i - 1];
      }
    }
  }

  /** Collapsed text is left alone. */
  lemma {:induction false} CollapseFixed(s: string)
    requires Collapsed(s)
    ensures CollapseSpace(s) == s
    decreases |s|
  {
    if s != [] {
      assert Collapsed(s[1..]) by {
        forall i | 0 <= i < |s[1..]| - 1 ensures !(IsSpace(s[1..][i]) && IsSpace(s[1..][i + 1])) {
          assert s[1..][i] == s[i + 1] && s[1..][i + 1] == s[i + 2];
        }
      }
      if IsSpace(s[0]) {
        assert |s| > 1 ==> !IsSpace(s[1]);
        assert TrimStart(s) == s[1..] by {
          assert TrimStart(s) == TrimStart(s[1..]);
        }
        assert s[0] == ' ';
        CollapseFixed(s[1..]);
        assert s == " " + s[1..];
      } else {
        CollapseFixed(s[1..]);
        assert s == [s[0]] + s[1..];
      }
    }
  }

  /** A white-space run is dropped whole by `TrimStart`. */
  lemma TrimStartOfRun(w: string, b: string)
    requires AllSpace(w) && (b == [] || !IsSpace(b[0]))
    ensures TrimStart(w + b) == b
  {
    TrimStartAllSpace(w);
    if b == [] {
      assert w + b == w;
    } else {
      TrimStartConcat(w, b);
    }
  }

  lemma {:induction false} TrimStartAllSpace(w: string)
    requires AllSpace(w)
    ensures TrimStart(w) == []
  {
    if w != [] {
      TrimStartAllSpace(w[1..]);
    }
  }

  /** Leading white space of a text that ends in a non-space character is
      trimmed the same whatever follows it. */
  lemma {:induction false} TrimStartSolidEnd(a: string, x: string)
    requires a != [] && !IsSpace(a[|a| - 1])
    ensures TrimStart(a + x) == TrimStart(a) + x
  {
    assert (a + x)[0] == a[0];
    if IsSpace(a[0]) {
      assert (a + x)[1..] == a[1..] + x;
      TrimStartSolidEnd(a[1..], x);
    }
  }

  lemma SeqAssoc(p: string, q: string, r: string)
    ensures p + (q + r) == (p + q) + r
  {
  }

  /** Collapsing works piece by piece when the cut falls after a non-space
      character. */
  lemma {:induction false} CollapseConcat(a: string, x: string)
    requires a == [] || !IsSpace(a[|a| - 1])
    ensures CollapseRuns(a + x) == CollapseRuns(a) + CollapseRuns(x)
    decreases |a|
  {
    if a == [] {
      assert a + x == x;
    } else if IsSpace(a[0]) {
      var t := TrimStart(a);
      TrimStartSolidEnd(a, x);
      assert t != [] && t[|t| - 1] == a[|a| - 1];
      CollapseConcat(t, x);
      assert (a + x)[0] == a[0];
      assert CollapseRuns(a + x) == " " + CollapseRuns(t + x);
      assert CollapseRuns(a) == " " + CollapseRuns(t);
      SeqAssoc(" ", CollapseRuns(t), CollapseRuns(x));
    } else {
      assert (a + x)[0] == a[0];
      assert (a + x)[1..] == a[1..] + x;
      CollapseConcat(a[1..], x);
      assert CollapseRuns(a + x) == [a[0]] + CollapseRuns(a[1..] + x);
      assert CollapseRuns(a) == [a[0]] + CollapseRuns(a[1..]);
      SeqAssoc([a[0]], CollapseRuns(a[1..]), CollapseRuns(x));
    }
  }

  /** A run of white space before a non-space character (or the end) becomes
      exactly one space. */
  lemma CollapseRun(w: string, b: string)
    requires w != [] && AllSpace(w) && (b == [] || !IsSpace(b[0]))
    ensures CollapseRuns(w + b) == " " + CollapseRuns(b)
  {
    assert (w + b)[0] == w[0];
    TrimStartOfRun(w, b);
  }

  /** Text without white space is kept as it is, whatever follows it. */
  lemma {:induction false} CollapseKeepsSolid(u: string, b: string)
    requires forall i :: 0 <= i < |u| ==> !IsSpace(u[i])
    ensures CollapseSpace(u + b) == u + CollapseSpace(b)
  {
    CollapseRunsKeepsSolid(u, b);
  }

  lemma {:induction false} CollapseRunsKeepsSolid(u: string, b: string)
    requires forall i :: 0 <= i < |u| ==> !IsSpace(u[i])
    ensures CollapseRuns(u + b) == u + CollapseRuns(b)
  {
    if u == [] {
      assert u + b == b;
    } else {
      assert (u + b)[0] == u[0];
      assert (u + b)[1..] == u[1..] + b;
      CollapseRunsKeepsSolid(u[1..], b);
      assert u == [u[0]] + u[1..];
      SeqAssoc([u[0]], u[1..], CollapseRuns(b));
    }
  }

  /** The white-space run between two pieces of text becomes one space and
      the pieces are collapsed on their own: `"a \t\n b"` gives `"a b"`. */
  lemma CollapseBetweenWords(a: string, w: string, b: string)
    requires a == [] || !IsSpace(a[|a| - 1])
    requires w != [] && AllSpace(w) && (b == [] || !IsSpace(b[0]))
    ensures CollapseSpace(a + w + b) == CollapseSpace(a) + " " + CollapseSpace(b)
  {
    CollapseRunsBetween(a, w, b);
  }

  lemma CollapseRunsBetween(a: string, w: string, b: string)
    requires a == [] || !IsSpace(a[|a| - 1])
    requires w != [] && AllSpace(w) && (b == [] || !IsSpace(b[0]))
    ensures CollapseRuns(a + w + b) == CollapseRuns(a) + " " + CollapseRuns(b)
  {
    assert a + w + b == a + (w + b);
    CollapseConcat(a, w + b);
    CollapseRun(w, b);
    SeqAssoc(CollapseRuns(a), " ", CollapseRuns(b));
  }

  /** A piece of collapsed text is collapsed. */
  lemma CollapsedSlice(s: string, i: nat, j: nat)
    requires Collapsed(s) && i <= j <= |s|
    ensures Collapsed(s[i..j])
  {
    var t := s[i..j];
    assert forall k :: 0 <= k < |t| ==> t[k] == s[i + k];
  }

  lemma CollapsedTrim(c: string)
    requires Collapsed(c)
    ensures Collapsed(Trim(c)) && TrimEdges(Trim(c))
  {
    var t := TrimStart(c);
    CollapsedSlice(c, |c| - |t|, |c|);
    CollapsedSlice(t, 0, |TrimEnd(t)|);
    TrimEdgesHold(c);
  }

  /** `sanitizeWhitespace`. */
  function SanitizeWhitespace(s: string): (r: string)
    ensures TrimEdges(r) && Collapsed(r)
    ensures Solid(r) == Solid(s)
  {
    var c := CollapseSpace(s);
    CollapsedTrim(c);
    SolidOfTrim(c);
    Trim(c)
  }

  /** Two words separated by white space of any kind and length come out
      separated by exactly one space. */
  lemma SanitizeBetweenWords(a: string, w: string, b: string)
    requires a != [] && b != [] && w != [] && AllSpace(w)
    requires forall i :: 0 <= i < |a| ==> !IsSpace(a[i])
    requires forall i :: 0 <= i < |b| ==> !IsSpace(b[i])
    ensures SanitizeWhitespace(a + w + b) == a + " " + b
  {
    CollapseBetweenWords(a, w, b);
    SolidCollapse(a);
    SolidCollapse(b);
    var r := a + " " + b;
    assert r[0] == a[0] && r[|r| - 1] == b[|b| - 1];
    TrimOfTrimmed(r);
  }

  /** Text without white space collapses to itself. */
  lemma SolidCollapse(u: string)
    requires forall i :: 0 <= i < |u| ==> !IsSpace(u[i])
    ensures CollapseSpace(u) == u
  {
    CollapseKeepsSolid(u, []);
    assert u + [] == u;
  }

  lemma SanitizeIdempotent(s: string)
    ensures SanitizeWhitespace(SanitizeWhitespace(s)) == SanitizeWhitespace(s)
  {
    var r := SanitizeWhitespace(s);
    CollapseFixed(r);
    TrimOfTrimmed(r);
  }

  // ---------------------------------------------------------------------------
  // Message rendering
  // ---------------------------------------------------------------------------

  /** `resolveAuthorLabel`. */
  function ResolveAuthorLabel(m: ChatMessage): (r: string)
    ensures m.fromMe ==> r == "Me"
    ensures !m.fromMe ==> r == FirstDefined([m.notifyName, m.pushname, m.author, m.from], "Contact")
  {
    if m.fromMe then "Me"
    else FirstDefined([m.notifyName, m.pushname, m.author, m.from], "Contact")
  }

  /** The author label is `Me`, a name the message carries, or `Contact`. */
  lemma AuthorLabelSource(m: ChatMessage)
    ensures var r := ResolveAuthorLabel(m);
      r == "Me" || r == "Contact" || Some(r) in [m.notifyName, m.pushname, m.author, m.from]
  {
  }

  /** `resolveMessageBody`: a non-empty body, collapsed and trimmed, else a
      marker for media, else a marker for no text. */
  function ResolveMessageBody(m: ChatMessage): (r: string)
    ensures TrimEdges(r) && Collapsed(r)
    ensures Present(m.body) ==> r == SanitizeWhitespace(m.body.value)
    ensures !Present(m.body) && m.hasMedia ==> r == MediaBody
    ensures !Present(m.body) && !m.hasMedia ==> r == NoTextBody
  {
    if Present(m.body) then SanitizeWhitespace(m.body.value)
    else if m.hasMedia then
      assert MediaBody[0] == '[' && MediaBody[|MediaBody| - 1] == ']';
      assert forall i :: 0 <= i < |MediaBody| ==> (IsSpace(MediaBody[i]) <==> i == 6);
      MediaBody
    else
      assert NoTextBody[0] == '[' && NoTextBody[|NoTextBody| - 1] == ']';
      assert forall i :: 0 <= i < |NoTextBody| ==> (IsSpace(NoTextBody[i]) <==> i == 3);
      NoTextBody
  }

  /** `Boolean(message.timestamp)`: a defined, non-zero timestamp. */
  predicate HasTimestamp(m: ChatMessage) {
    m.timestamp.Some? && m.timestamp.value != 0
  }

  /** `message.timestamp ?? 0`. */
  function TimestampOrZero(m: ChatMessage): int {
    m.timestamp.GetOr(0)
  }

  /** The time column: the ISO rendering of the timestamp in milliseconds,
      given by `isoTime`, or `unknown-time`. */
  function TimeLabel(m: ChatMessage, isoTime: int -> string): string {
    if HasTimestamp(m) then isoTime(m.timestamp.value * 1000) else UnknownTime
  }

  /** One transcript row, `[<time>] <author>: <body>`. */
  function Row(m: ChatMessage, isoTime: int -> string): string {
    "[" + TimeLabel(m, isoTime) + "] " + ResolveAuthorLabel(m) + ": " + ResolveMessageBody(m)
  }

  function Rows(messages: seq<ChatMessage>, isoTime: int -> string): (r: seq<string>)
    ensures |r| == |messages|
    ensures forall i :: 0 <= i < |r| ==> r[i] == Row(messages[i], isoTime)
  {
    seq(|messages|, i requires 0 <= i < |messages| => Row(messages[i], isoTime))
  }

  /** The rows joined by newlines, before any truncation. */
  function FullTranscript(messages: seq<ChatMessage>, isoTime: int -> string): string {
    Join(Rows(messages, isoTime), "\n")
  }

  /** `buildTranscript`: the last `min(length, 9000)` characters of the full
      transcript. */
  function BuildTranscript(messages: seq<ChatMessage>, isoTime: int -> string): (r: string)
    ensures var t := FullTranscript(messages, isoTime);
      |r| == (if |t| <= MaxPromptChars then |t| else MaxPromptChars) && r == t[|t| - |r|..]
    ensures |FullTranscript(messages, isoTime)| <= MaxPromptChars ==> r == FullTranscript(messages, isoTime)
  {
    var t := FullTranscript(messages, isoTime);
    if |t| <= MaxPromptChars then t else t[|t| - MaxPromptChars..]
  }

  /** The newest row survives the truncation whenever it fits on its own. */
  lemma TranscriptKeepsLastRow(messages: seq<ChatMessage>, isoTime: int -> string)
    requires messages != []
    requires |Row(messages[|messages| - 1], isoTime)| <= MaxPromptChars
    ensures EndsWith(BuildTranscript(messages, isoTime), Row(messages[|messages| - 1], isoTime))
  {
    var rows := Rows(messages, isoTime);
    var last := rows[|rows| - 1];
    JoinEndsWithLast(rows, "\n");
    var t := FullTranscript(messages, isoTime);
    EndsWithSuffix(t, BuildTranscript(messages, isoTime), last);
  }

  // ---------------------------------------------------------------------------
  // Choosing the messages
  // ---------------------------------------------------------------------------

  /** Kept by the filter: a truthy timestamp no older than the cutoff. */
  predicate IsRecent(m: ChatMessage, cutoff: int) {
    HasTimestamp(m) && m.timestamp.value * 1000 >= cutoff
  }

  /** The filter, then the ascending sort by `timestamp ?? 0`. */
  function RecentMessages(messages: seq<ChatMessage>, cutoff: int): (r: seq<ChatMessage>)
    ensures SortedBy(r, TimestampOrZero)
    ensures |r| <= |messages|
    ensures forall i :: 0 <= i < |r| ==> r[i] in messages && IsRecent(r[i], cutoff)
  {
    var f := FilterBy(messages, m => IsRecent(m, cutoff));
    var r := SortBy(f, TimestampOrZero);
    assert |r| == |multiset(r)| == |multiset(f)| == |f|;
    assert forall i :: 0 <= i < |r| ==> r[i] in multiset(f);
    r
  }

  /** The recent messages are exactly the fetched ones within the window,
      each as often as it was fetched, oldest first. */
  lemma RecentMessagesSpec(messages: seq<ChatMessage>, cutoff: int)
    ensures var r := RecentMessages(messages, cutoff);
      SortedBy(r, TimestampOrZero)
      && (forall m :: m in r <==> m in messages && IsRecent(m, cutoff))
      && (forall m :: multiset(r)[m] == if IsRecent(m, cutoff) then multiset(messages)[m] else 0)
  {
    var keep := (m: ChatMessage) => IsRecent(m, cutoff);
    var f := FilterBy(messages, keep);
    forall m ensures multiset(f)[m] == if IsRecent(m, cutoff) then multiset(messages)[m] else 0 {
      FilterByCounts(messages, keep, m);
    }
    assert multiset(RecentMessages(messages, cutoff)) == multiset(f);
    forall m ensures m in RecentMessages(messages, cutoff) <==> m in f {
      assert m in RecentMessages(messages, cutoff) <==> m in multiset(f);
    }
  }

  // ---------------------------------------------------------------------------
  // The prompt
  // ---------------------------------------------------------------------------

  /** `summaryPreference?.trim() || 'not provided'`. */
  function PreferenceText(pref: Option<string>): (r: string)
    ensures r != ""
    ensures pref.Some? && Trim(pref.value) != "" ==> r == Trim(pref.value)
    ensures pref.None? || Trim(pref.value) == "" ==> r == NoPreference
  {
    if pref.Some? && Trim(pref.value) != "" then Trim(pref.value) else NoPreference
  }

  /** `buildSummaryPrompt` as written: it fills `{{SUMMARY_PREF}}` and
      `{{CONTEXT_BLOCK}}`, neither of which the template holds, so the prompt
      is the bare template and the transcript never reaches the model. */
  function BuildSummaryPromptAsWritten(transcript: string, pref: Option<string>): (r: string)
    ensures r == SummaryPromptTemplate
  {
    SummaryTemplateLacksOtherPlaceholders();
    ReplaceFirstSplit(SummaryPromptTemplate, SummaryPrefPlaceholder, PreferenceText(pref));
    ReplaceFirstSplit(SummaryPromptTemplate, ContextBlockPlaceholder, transcript);
    ReplaceFirst(ReplaceFirst(SummaryPromptTemplate, SummaryPrefPlaceholder, PreferenceText(pref)),
      ContextBlockPlaceholder, transcript)
  }

  /** The intended prompt: the transcript goes where the template expects it,
      `{{TRANSCRIPT}}`. The template has no slot for the preference. */
  function BuildSummaryPrompt(transcript: string, pref: Option<string>): (r: string)
    ensures r == SummaryTemplateHead() + transcript
  {
    SummaryTemplateLacksOtherPlaceholders();
    ReplaceFirstSplit(SummaryPromptTemplate, SummaryPrefPlaceholder, PreferenceText(pref));
    SummaryTemplateTranscriptOnce();
    SummaryHeadHasNoBrace();
    ReplaceSlot(SummaryTemplateHead(), TranscriptPlaceholder, "", transcript);
    assert SummaryTemplateHead() + TranscriptPlaceholder + "" == SummaryPromptTemplate;
    assert SummaryTemplateHead() + transcript + "" == SummaryTemplateHead() + transcript;
    ReplaceFirst(ReplaceFirst(SummaryPromptTemplate, SummaryPrefPlaceholder, PreferenceText(pref)),
      TranscriptPlaceholder, transcript)
  }

  /** The transcript can be read back from the intended prompt. */
  lemma PromptCarriesTranscript(transcript: string, pref: Option<string>)
    ensures var p := BuildSummaryPrompt(transcript, pref);
      StartsWith(p, SummaryTemplateHead()) && p[|SummaryTemplateHead()|..] == transcript
  {
  }

  // ---------------------------------------------------------------------------
  // The command
  // ---------------------------------------------------------------------------

  /** A message the bot sends. */
  datatype Outgoing = Outgoing(to: string, text: string)

  /** `summarizeRecentChat`. `chatId` is `chat?.id?._serialized`; `history`
      is what fetching the chat's messages produced, or the error it raised;
      `now` is the clock in milliseconds. */
  function SummarizeRecentChat(c: OpenRouterClient, jid: string, chatId: Option<string>,
                               history: Result<seq<ChatMessage>>, now: int, lookbackMs: Option<int>,
                               pref: Option<string>, isoTime: int -> string,
                               provider: Provider, parseJson: string -> Option<JsonValue>): (r: seq<Outgoing>)
    ensures !IsEnabled(c) ==> r == []
    ensures IsEnabled(c) ==> |r| == 1 && r[0].to == chatId.GetOr(jid)
    ensures IsEnabled(c) && history.Err? ==> r[0].text == FailureNotice
    ensures IsEnabled(c) && history.Ok? ==>
      var recent := RecentMessages(history.value, now - lookbackMs.GetOr(DefaultLookbackMs));
      var summary := GenerateText(c, BuildSummaryPrompt(BuildTranscript(recent, isoTime), pref),
                                  SummarySystemPrompt, provider, parseJson);
      (recent == [] ==> r[0].text == NoMessagesNotice)
      && (recent != [] && summary.Err? ==> r[0].text == FailureNotice)
      && (recent != [] && summary.Ok? ==> r[0].text == SummaryHeader + Trim(summary.value))
  {
    if !IsEnabled(c) then []
    else
      var target := chatId.GetOr(jid);
      match history
      case Err(_) => [Outgoing(target, FailureNotice)]
      case Ok(messages) =>
        var recent := RecentMessages(messages, now - lookbackMs.GetOr(DefaultLookbackMs));
        if recent == [] then [Outgoing(target, NoMessagesNotice)]
        else
          var prompt := BuildSummaryPrompt(BuildTranscript(recent, isoTime), pref);
          match GenerateText(c, prompt, SummarySystemPrompt, provider, parseJson)
          case Err(_) => [Outgoing(target, FailureNotice)]
          case Ok(summary) => [Outgoing(target, SummaryHeader + Trim(summary))]
  }
}
