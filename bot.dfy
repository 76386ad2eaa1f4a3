/**
 * The bot's message handling: which command an incoming message selects, what
 * each handler replies in which order of checks, how downloaded media are
 * named, the per-chat meal log, the start-up messages and the top-chats
 * listing. A handler is a function from the message and the outcomes of its
 * calls (download, model request) to the effects it has, in order.
 */
module Bot {
  import opened Wrappers
  import opened Text
  import opened Json
  import opened Runtime
  import opened Sorting
  import opened OpenRouter
  import opened PlateCalorieEstimator
  import opened ScienceBrief
  import opened ChatSummary

  // ---------------------------------------------------------------------------
  // Messages and effects
  // ---------------------------------------------------------------------------

  /** `message.id`: its `_serialized` form and its bare `id`. */
  datatype MessageId = MessageId(serialized: Option<string>, id: Option<string>)

  /** The fields of an incoming message the handlers read. */
  datatype IncomingMessage = IncomingMessage(from: string, body: Option<string>, hasMedia: bool, id: Option<MessageId>)

  /** What `downloadMedia` resolves to. */
  datatype Media = Media(mimetype: Option<string>, data: string, filename: Option<string>)

  /** One logged meal: `{ ts, caption, estimate, imagePath }`. */
  datatype MealEntry = MealEntry(ts: int, caption: string, estimate: CalorieEstimate, imagePath: string)

  /** What a handler does, in the order it does it. */
  datatype Effect =
    | Reply(text: string)
    | React(emoji: string)
    | Send(to: string, text: string)
    | SaveMedia(path: string)
    | LogMeal(jid: string, entry: MealEntry)

  const Hourglass: string := "\U{23F3}"
  const CheckMark: string := "\U{2705}"
  const Warning: string := "\U{26A0}\U{FE0F}"
  const TestTube: string := "\U{1F9EA}"
  const Plate: string := "\U{1F37D}\U{FE0F}"

  const AskUsage: string := "Usage: !ask <your prompt>"
  const AskDisabled: string := "OpenRouter API key missing. Set OPENROUTER_API_KEY to enable AI responses."
  const AskFailure: string := "I could not reach OpenRouter right now. Please try again soon."
  const ScienceUsage: string := "Usage: !science <topic>"
  const ScienceDisabled: string := "OpenRouter API key missing. Set OPENROUTER_API_KEY to enable science briefs."
  const ScienceFailure: string := "I could not generate a science brief right now. Please try again soon."
  const CalorieDisabled: string := "OpenRouter API key missing. Set OPENROUTER_API_KEY to enable calorie estimation."
  const CalorieAttach: string := "Attach a plate photo with the caption \"!calories <items>\"."
  const CalorieUnreliable: string := "Could not estimate calories reliably from this photo. Try a clearer image and caption."
  const CalorieFailure: string := "I could not estimate calories right now. Please try again soon."
  const CaptionPrefix: string := "\U{1F5BC}\U{FE0F} Caption: "

  // ---------------------------------------------------------------------------
  // Dispatch
  // ---------------------------------------------------------------------------

  const CaloriesPrefix: string := "!calories"
  const SciencePrefix: string := "!science"
  const AskPrefix: string := "!ask"

  /** The handler a message selects, with its argument. */
  datatype Command = Calories(caption: string) | Science(topic: string) | Ask(prompt: string) | MediaOnly | NoCommand

  /** `(message.body ?? '').trim()`. */
  function Incoming(body: Option<string>): string {
    Trim(body.GetOr(""))
  }

  /** The command's prefix matches the lower-cased text. */
  predicate Selects(body: Option<string>, prefix: string) {
    StartsWith(ToLower(Incoming(body)), prefix)
  }

  /** The original-case text after the prefix, trimmed. */
  function Argument(body: Option<string>, prefix: string): string
    requires Selects(body, prefix)
  {
    Trim(Incoming(body)[|prefix|..])
  }

  /** The handler a message is routed to. */
  datatype Route = CaloriesRoute | ScienceRoute | AskRoute | MediaRoute | NoRoute

  /** The `message` listener's branching: `!calories` only with media, then
      `!science`, then `!ask`, then any media message. */
  function RouteOf(body: Option<string>, hasMedia: bool): (r: Route)
    ensures r == CaloriesRoute <==> hasMedia && Selects(body, CaloriesPrefix)
    ensures r == ScienceRoute <==> Selects(body, SciencePrefix)
    ensures r == AskRoute <==> Selects(body, AskPrefix) && !Selects(body, SciencePrefix)
    ensures r == MediaRoute <==> hasMedia && !Selects(body, CaloriesPrefix) && !Selects(body, SciencePrefix) && !Selects(body, AskPrefix)
  {
    PrefixesExclusive(body);
    if hasMedia && Selects(body, CaloriesPrefix) then CaloriesRoute
    else if Selects(body, SciencePrefix) then ScienceRoute
    else if Selects(body, AskPrefix) then AskRoute
    else if hasMedia then MediaRoute
    else NoRoute
  }

  /** The selected handler with its argument: the text after the prefix. */
  function Dispatch(body: Option<string>, hasMedia: bool): (r: Command)
    ensures r.Calories? <==> hasMedia && Selects(body, CaloriesPrefix)
    ensures r.Science? <==> Selects(body, SciencePrefix)
    ensures r.Ask? <==> Selects(body, AskPrefix)
    ensures r.MediaOnly? <==> hasMedia && !Selects(body, CaloriesPrefix) && !Selects(body, SciencePrefix) && !Selects(body, AskPrefix)
    ensures r.Calories? ==> r.caption == Trim(Incoming(body)[|CaloriesPrefix|..])
    ensures r.Science? ==> r.topic == Trim(Incoming(body)[|SciencePrefix|..])
    ensures r.Ask? ==> r.prompt == Trim(Incoming(body)[|AskPrefix|..])
  {
    PrefixesExclusive(body);
    match RouteOf(body, hasMedia)
    case CaloriesRoute => Calories(Argument(body, CaloriesPrefix))
    case ScienceRoute => Science(Argument(body, SciencePrefix))
    case AskRoute => Ask(Argument(body, AskPrefix))
    case MediaRoute => MediaOnly
    case NoRoute => NoCommand
  }

  /** Whether a prefix matches depends on the text only up to case. */
  lemma SelectsUpToCase(b1: Option<string>, b2: Option<string>, prefix: string)
    requires ToLower(Incoming(b1)) == ToLower(Incoming(b2))
    ensures Selects(b1, prefix) == Selects(b2, prefix)
  {
  }

  /** Which handler runs depends on the letters of the text only up to case:
      bodies whose trimmed, lower-cased forms agree are routed alike. */
  lemma RouteIgnoresCase(b1: Option<string>, b2: Option<string>, hasMedia: bool)
    requires ToLower(Incoming(b1)) == ToLower(Incoming(b2))
    ensures RouteOf(b1, hasMedia) == RouteOf(b2, hasMedia)
  {
    SelectsUpToCase(b1, b2, CaloriesPrefix);
    SelectsUpToCase(b1, b2, SciencePrefix);
    SelectsUpToCase(b1, b2, AskPrefix);
  }

  /** A text that selects one prefix does not select another that differs
      from it at a position both have. */
  lemma PrefixExcludes(body: Option<string>, prefix: string, other: string, k: nat)
    requires Selects(body, prefix) && k < |prefix| && k < |other| && prefix[k] != other[k]
    ensures !Selects(body, other)
  {
    var t := ToLower(Incoming(body));
    assert t[..|prefix|][k] == t[k];
    if |other| <= |t| {
      assert t[..|other|][k] == t[k];
    }
  }

  /** No text selects two of the three commands. */
  lemma PrefixesExclusive(body: Option<string>)
    ensures !(Selects(body, CaloriesPrefix) && Selects(body, SciencePrefix))
    ensures !(Selects(body, CaloriesPrefix) && Selects(body, AskPrefix))
    ensures !(Selects(body, SciencePrefix) && Selects(body, AskPrefix))
  {
    PrefixLetters();
    if Selects(body, SciencePrefix) {
      PrefixExcludes(body, SciencePrefix, CaloriesPrefix, 1);
      PrefixExcludes(body, SciencePrefix, AskPrefix, 1);
    }
    if Selects(body, CaloriesPrefix) {
      PrefixExcludes(body, CaloriesPrefix, AskPrefix, 1);
    }
  }

  /** The letter after the `!` tells the three prefixes apart. */
  lemma PrefixLetters()
    ensures CaloriesPrefix[1] == 'c' && SciencePrefix[1] == 's' && AskPrefix[1] == 'a'
  {
  }

  /** A prefix, in any case, then a space and an argument without white
      space at its ends: the prefix is selected, the argument comes back
      in its original case, and the text still shows the prefix's letters. */
  lemma SelectsPrefixed(p: string, a: string, prefix: string)
    requires ToLower(p) == prefix && p != [] && !IsSpace(p[0]) && a != [] && TrimEdges(a)
    ensures Incoming(Some(p + " " + a)) == p + " " + a
    ensures Selects(Some(p + " " + a), prefix) && Argument(Some(p + " " + a), prefix) == a
  {
    var x := p + " " + a;
    PrefixedIncoming(p, a);
    assert x == p + (" " + a);
    LowerStartsWith(p, " " + a, prefix);
    assert x[|p|..] == " " + a;
    TrimAfterSpace(a);
  }

  /** Lower-casing keeps a prefix in place. */
  lemma PrefixedIncoming(p: string, a: string)
    requires p != [] && !IsSpace(p[0]) && a != [] && TrimEdges(a)
    ensures Incoming(Some(p + " " + a)) == p + " " + a
  {
    TrimmedAround(p, " ", a);
  }

  lemma LowerStartsWith(p: string, q: string, prefix: string)
    requires ToLower(p) == prefix
    ensures StartsWith(ToLower(p + q), prefix)
  {
    LowerPrefix(p, q);
    assert |ToLower(p + q)| == |p + q|;
  }

  /** Text that starts and ends with non-space characters is its own trim. */
  lemma TrimmedAround(p: string, m: string, a: string)
    requires p != [] && !IsSpace(p[0]) && a != [] && !IsSpace(a[|a| - 1])
    ensures Trim(p + m + a) == p + m + a
  {
    var x := p + m + a;
    assert x[0] == p[0] && x[|x| - 1] == a[|a| - 1];
    TrimOfTrimmed(x);
  }

  lemma TrimAfterSpace(a: string)
    requires TrimEdges(a)
    ensures Trim(" " + a) == a
  {
    assert (" " + a)[1..] == a;
    TrimOfTrimmed(a);
  }

  lemma LowerPrefix(p: string, q: string)
    ensures ToLower(p + q)[..|p|] == ToLower(p)
  {
    ToLowerConcat(p, q);
  }

  /** A leading `!` survives lower-casing unchanged and is not white space. */
  lemma BangFirst(p: string, prefix: string)
    requires ToLower(p) == prefix && prefix != [] && prefix[0] == '!'
    ensures p != [] && p[0] == '!' && !IsSpace(p[0])
  {
    assert ToLower(p)[0] == LowerChar(p[0]);
    LowerCharBang(p[0]);
  }

  /** `!science` in any letter case selects the science handler and passes
      the topic in its original case, with or without media. */
  lemma ScienceArgumentKeepsCase(p: string, topic: string, hasMedia: bool)
    requires ToLower(p) == SciencePrefix && topic != [] && TrimEdges(topic)
    ensures Dispatch(Some(p + " " + topic), hasMedia) == Science(topic)
  {
    PrefixLetters();
    BangFirst(p, SciencePrefix);
    SelectsPrefixed(p, topic, SciencePrefix);
    PrefixExcludes(Some(p + " " + topic), SciencePrefix, CaloriesPrefix, 1);
  }

  /** Likewise for `!ask`; without media no other command can be selected. */
  lemma AskArgumentKeepsCase(p: string, prompt: string)
    requires ToLower(p) == AskPrefix && prompt != [] && TrimEdges(prompt)
    ensures Dispatch(Some(p + " " + prompt), false) == Ask(prompt)
  {
    PrefixLetters();
    BangFirst(p, AskPrefix);
    SelectsPrefixed(p, prompt, AskPrefix);
    PrefixExcludes(Some(p + " " + prompt), AskPrefix, SciencePrefix, 1);
    PrefixExcludes(Some(p + " " + prompt), AskPrefix, CaloriesPrefix, 1);
  }

  /** `!calories` without media is not a calorie command; it falls through
      and, since `!calories` starts neither other prefix, nothing runs. */
  lemma CaloriesWithoutMediaIgnored(body: Option<string>)
    requires Selects(body, CaloriesPrefix)
    ensures Dispatch(body, false) == NoCommand
  {
    PrefixLetters();
    PrefixExcludes(body, CaloriesPrefix, SciencePrefix, 1);
    PrefixExcludes(body, CaloriesPrefix, AskPrefix, 1);
  }

  // ---------------------------------------------------------------------------
  // Media file names
  // ---------------------------------------------------------------------------

  /** The characters `[a-z0-9-_.]` with the `i` flag: ASCII letters of either
      case, digits, `-`, `_` and `.`. */
  predicate FileNameChar(c: char) {
    ('a' <= c <= 'z') || ('A' <= c <= 'Z') || ('0' <= c <= '9') || c == '-' || c == '_' || c == '.'
  }

  /** `sanitizeFilename`: every other character becomes `_`. */
  function SanitizeFilename(s: string): (r: string)
    ensures |r| == |s|
    ensures forall i :: 0 <= i < |r| ==> FileNameChar(r[i])
    ensures forall i :: 0 <= i < |s| && FileNameChar(s[i]) ==> r[i] == s[i]
    ensures forall i :: 0 <= i < |s| && !FileNameChar(s[i]) ==> r[i] == '_'
  {
    seq(|s|, i requires 0 <= i < |s| => if FileNameChar(s[i]) then s[i] else '_')
  }

  /** A name is left alone exactly when it has only allowed characters. */
  lemma SanitizeFixedIff(s: string)
    ensures SanitizeFilename(s) == s <==> forall i :: 0 <= i < |s| ==> FileNameChar(s[i])
  {
    if SanitizeFilename(s) == s {
      assert forall i :: 0 <= i < |s| ==> FileNameChar(SanitizeFilename(s)[i]);
    }
  }

  lemma SanitizeIdempotent(s: string)
    ensures SanitizeFilename(SanitizeFilename(s)) == SanitizeFilename(s)
  {
    SanitizeFixedIff(SanitizeFilename(s));
  }

  /** `formatMessageId`: `_serialized`, else `id`, else `message`. */
  function FormatMessageId(id: Option<MessageId>): (r: string)
    ensures id.Some? && id.value.serialized.Some? ==> r == id.value.serialized.value
    ensures id.Some? && id.value.serialized.None? && id.value.id.Some? ==> r == id.value.id.value
    ensures id.None? || (id.value.serialized.None? && id.value.id.None?) ==> r == "message"
  {
    match id
    case None => "message"
    case Some(mid) =>
      if mid.serialized.Some? then mid.serialized.value
      else if mid.id.Some? then mid.id.value
      else "message"
  }

  /** `deriveMessageSlug`; `stamp` is the rendered time (the ISO timestamp
      with `:` and `.` replaced, or the clock's milliseconds). */
  function MessageSlug(id: Option<MessageId>, stamp: string): (r: string)
    ensures r != "" && StartsWith(r, FormatMessageId(id) + "-")
    ensures r[|FormatMessageId(id)| + 1..] == stamp
  {
    var p := FormatMessageId(id) + "-";
    assert (p + stamp)[..|p|] == p;
    p + stamp
  }

  /** Two saves of the same message get the same slug only at the same stamp. */
  lemma SlugsSeparateStamps(id: Option<MessageId>, stamp1: string, stamp2: string)
    ensures MessageSlug(id, stamp1) == MessageSlug(id, stamp2) <==> stamp1 == stamp2
  {
  }

  /** The base name: the sanitised file name (or slug), falling back to the
      unsanitised slug when that is empty. */
  function BaseName(filename: Option<string>, slug: string): (r: string)
    ensures slug != "" ==> r != ""
    ensures Present(filename) ==> r == SanitizeFilename(filename.value)
    ensures filename.None? && slug != "" ==> r == SanitizeFilename(slug)
    ensures filename == Some("") ==> r == slug
  {
    var s := SanitizeFilename(filename.GetOr(slug));
    if s == "" then slug else s
  }

  /** The extension is appended unless the base name already ends with it,
      compared without regard to case. */
  function MediaFileName(base: string, extension: Option<string>): (r: string)
    ensures Present(extension) && !EndsWith(ToLower(base), "." + ToLower(extension.value)) ==>
      r == base + "." + extension.value
    ensures !(Present(extension) && !EndsWith(ToLower(base), "." + ToLower(extension.value))) ==> r == base
  {
    if Present(extension) && !EndsWith(ToLower(base), "." + ToLower(extension.value)) then base + "." + extension.value
    else base
  }

  /** Whenever there is an extension, the file name ends with it (up to
      case), and it is added at most once. */
  lemma MediaFileNameEndsWithExtension(base: string, ext: string)
    requires ext != ""
    ensures EndsWith(ToLower(MediaFileName(base, Some(ext))), "." + ToLower(ext))
    ensures MediaFileName(MediaFileName(base, Some(ext)), Some(ext)) == MediaFileName(base, Some(ext))
  {
    var r := MediaFileName(base, Some(ext));
    if r != base {
      ToLowerConcat(base, "." + ext);
      ToLowerConcat(".", ext);
      var lr := ToLower(base) + ("." + ToLower(ext));
      assert lr[|lr| - |"." + ToLower(ext)|..] == "." + ToLower(ext);
    }
  }

  /** `mime.extension` of a truthy `mimetype`. */
  function Extension(mimetype: Option<string>, host: Host): Option<string> {
    if Present(mimetype) then host.mimeExtension(mimetype.value) else None
  }

  /** The name `persistMedia` writes under (the downloads directory left out). */
  function MediaPath(media: Media, msg: IncomingMessage, host: Host, stamp: string): (r: string)
    ensures r != ""
  {
    MediaFileName(BaseName(media.filename, MessageSlug(msg.id, stamp)), Extension(media.mimetype, host))
  }

  /** `media.mimetype?.startsWith('image/')`. */
  predicate IsImage(media: Media) {
    media.mimetype.Some? && StartsWith(media.mimetype.value, "image/")
  }

  // ---------------------------------------------------------------------------
  // Handlers
  // ---------------------------------------------------------------------------

  /** `handleAskCommand`: usage, then the enabled check, then one text
      request with the default system prompt. */
  function HandleAsk(c: OpenRouterClient, msg: IncomingMessage, prompt: string,
                     provider: Provider, parseJson: string -> Option<JsonValue>): (r: seq<Effect>)
    ensures prompt == "" ==> r == [Reply(AskUsage)]
    ensures prompt != "" && !IsEnabled(c) ==> r == [Reply(AskDisabled)]
    ensures prompt != "" && IsEnabled(c) ==>
      var answer := GenerateText(c, prompt, DefaultSystemPrompt, provider, parseJson);
      (answer.Ok? ==> r == [React(Hourglass), Send(msg.from, answer.value), React(CheckMark)])
      && (answer.Err? ==> r == [React(Hourglass), React(Warning), Reply(AskFailure)])
  {
    if prompt == "" then [Reply(AskUsage)]
    else if !IsEnabled(c) then [Reply(AskDisabled)]
    else
      match GenerateText(c, prompt, DefaultSystemPrompt, provider, parseJson)
      case Ok(answer) => [React(Hourglass), Send(msg.from, answer), React(CheckMark)]
      case Err(_) => [React(Hourglass), React(Warning), Reply(AskFailure)]
  }

  /** `handleScienceCommand`: the same order of checks around the brief. */
  function HandleScience(c: OpenRouterClient, msg: IncomingMessage, topic: string,
                         provider: Provider, parseJson: string -> Option<JsonValue>): (r: seq<Effect>)
    ensures topic == "" ==> r == [Reply(ScienceUsage)]
    ensures topic != "" && !IsEnabled(c) ==> r == [Reply(ScienceDisabled)]
    ensures topic != "" && IsEnabled(c) ==>
      var brief := GenerateScienceBrief(c, topic, provider, parseJson);
      (brief.Ok? ==> r == [React(TestTube), Send(msg.from, brief.value), React(CheckMark)])
      && (brief.Err? ==> r == [React(TestTube), React(Warning), Reply(ScienceFailure)])
  {
    if topic == "" then [Reply(ScienceUsage)]
    else if !IsEnabled(c) then [Reply(ScienceDisabled)]
    else
      match GenerateScienceBrief(c, topic, provider, parseJson)
      case Ok(brief) => [React(TestTube), Send(msg.from, brief), React(CheckMark)]
      case Err(_) => [React(TestTube), React(Warning), Reply(ScienceFailure)]
  }

  /** The estimate for a downloaded image saved at `path`. */
  function EstimateFor(c: OpenRouterClient, media: Media, path: string, caption: string, host: Host, provider: Provider): Result<Option<CalorieEstimate>> {
    EstimatePlateCalories(c, EstimateParams(Some(path), Some(media.data), media.mimetype, caption), host, provider)
  }

  /** What follows the saved image: log and answer with an estimate, warn
      without one, apologise on an error. */
  function CalorieOutcome(from: string, caption: string, path: string, now: int, est: Result<Option<CalorieEstimate>>): (r: seq<Effect>)
    ensures est.Err? ==> r == [React(Warning), Reply(CalorieFailure)]
    ensures est == Ok(None) ==> r == [React(Warning), Reply(CalorieUnreliable)]
    ensures est.Ok? && est.value.Some? ==>
      r == [LogMeal(from, MealEntry(now, caption, est.value.value, path)), Send(from, RenderCalorieEstimate(est.value.value)), React(CheckMark)]
  {
    match est
    case Err(_) => [React(Warning), Reply(CalorieFailure)]
    case Ok(None) => [React(Warning), Reply(CalorieUnreliable)]
    case Ok(Some(e)) => [LogMeal(from, MealEntry(now, caption, e, path)), Send(from, RenderCalorieEstimate(e)), React(CheckMark)]
  }

  /** Every meal logged in `r` is for `from`, carries an estimate that is not
      all zero, and is followed by sending that estimate to `from`. */
  predicate LogsOnlySentEstimates(r: seq<Effect>, from: string) {
    forall i :: 0 <= i < |r| && r[i].LogMeal? ==>
      r[i].jid == from && !AllZero(r[i].entry.estimate)
      && i + 1 < |r| && r[i + 1] == Send(from, RenderCalorieEstimate(r[i].entry.estimate))
  }

  /** Effects that log nothing can go first. */
  lemma LogsPrepend(a: seq<Effect>, b: seq<Effect>, from: string)
    requires forall i :: 0 <= i < |a| ==> !a[i].LogMeal?
    requires LogsOnlySentEstimates(b, from)
    ensures LogsOnlySentEstimates(a + b, from)
  {
    var r := a + b;
    forall i | 0 <= i < |r| && r[i].LogMeal?
      ensures r[i].jid == from && !AllZero(r[i].entry.estimate)
              && i + 1 < |r| && r[i + 1] == Send(from, RenderCalorieEstimate(r[i].entry.estimate))
    {
      assert i >= |a|;
      assert r[i] == b[i - |a|] && r[i + 1] == b[i + 1 - |a|];
    }
  }

  /** A meal is logged only with an estimate that came back, and that same
      estimate is what is sent next. */
  lemma CalorieOutcomeLogs(from: string, caption: string, path: string, now: int, est: Result<Option<CalorieEstimate>>)
    requires est.Ok? && est.value.Some? ==> !AllZero(est.value.value)
    ensures LogsOnlySentEstimates(CalorieOutcome(from, caption, path, now, est), from)
    ensures (exists i :: 0 <= i < |CalorieOutcome(from, caption, path, now, est)| && CalorieOutcome(from, caption, path, now, est)[i].LogMeal?)
            <==> est.Ok? && est.value.Some?
  {
    var r := CalorieOutcome(from, caption, path, now, est);
    if est.Ok? && est.value.Some? {
      assert r[0].LogMeal?;
    }
  }

  /** `handleCalorieCommand`. `download` is what `downloadMedia` resolved to
      or the error it raised; `now` is the clock in milliseconds. The meals it
      logs satisfy `LogsOnlySentEstimates`. */
  function HandleCalories(c: OpenRouterClient, msg: IncomingMessage, caption: string, download: Result<Option<Media>>,
                          host: Host, provider: Provider, now: int, stamp: string): (r: seq<Effect>)
    ensures !IsEnabled(c) ==> r == [Reply(CalorieDisabled)]
    ensures IsEnabled(c) && download.Err? ==> r == [React(Plate), React(Warning), Reply(CalorieFailure)]
    ensures IsEnabled(c) && download.Ok? && (download.value.None? || !IsImage(download.value.value)) ==>
      r == [React(Plate), Reply(CalorieAttach)]
    ensures IsEnabled(c) && download.Ok? && download.value.Some? && IsImage(download.value.value) ==>
      var path := MediaPath(download.value.value, msg, host, stamp);
      r == [React(Plate), SaveMedia(path)]
        + CalorieOutcome(msg.from, caption, path, now, EstimateFor(c, download.value.value, path, caption, host, provider))
    ensures LogsOnlySentEstimates(r, msg.from)
  {
    if !IsEnabled(c) then [Reply(CalorieDisabled)]
    else
      match download
      case Err(_) => [React(Plate), React(Warning), Reply(CalorieFailure)]
      case Ok(m) =>
        if m.None? || !IsImage(m.value) then [React(Plate), Reply(CalorieAttach)]
        else
          var path := MediaPath(m.value, msg, host, stamp);
          var est := EstimateFor(c, m.value, path, caption, host, provider);
          var tail := CalorieOutcome(msg.from, caption, path, now, est);
          CalorieOutcomeLogs(msg.from, caption, path, now, est);
          LogsPrepend([React(Plate), SaveMedia(path)], tail, msg.from);
          [React(Plate), SaveMedia(path)] + tail
  }

  /** `handleMediaMessage`: save the media, and caption an image when the
      client is enabled; a failed caption request is only logged. */
  function HandleMedia(c: OpenRouterClient, msg: IncomingMessage, download: Result<Option<Media>>,
                       host: Host, provider: Provider, stamp: string): (r: seq<Effect>)
    ensures download.Err? || download.value.None? ==> r == []
    ensures download.Ok? && download.value.Some? ==>
      var media := download.value.value;
      var caption := DescribeImage(c, DescribeParams(Some(media.data), media.mimetype, None, None, None, None, None), host, provider);
      r != [] && r[0] == SaveMedia(MediaPath(media, msg, host, stamp))
      && (IsImage(media) && IsEnabled(c) && caption.Ok? ==> r == [r[0], Send(msg.from, CaptionPrefix + caption.value)])
      && (!(IsImage(media) && IsEnabled(c) && caption.Ok?) ==> r == [r[0]])
  {
    match download
    case Err(_) => []
    case Ok(None) => []
    case Ok(Some(media)) =>
      var saved := SaveMedia(MediaPath(media, msg, host, stamp));
      if IsImage(media) && IsEnabled(c) then
        match DescribeImage(c, DescribeParams(Some(media.data), media.mimetype, None, None, None, None, None), host, provider)
        case Ok(caption) => [saved, Send(msg.from, CaptionPrefix + caption)]
        case Err(_) => [saved]
      else [saved]
  }

  /** The `message` listener: exactly the handler `Dispatch` selects runs. */
  function HandleMessage(c: OpenRouterClient, msg: IncomingMessage, download: Result<Option<Media>>,
                         host: Host, provider: Provider, now: int, stamp: string): (r: seq<Effect>)
    ensures match Dispatch(msg.body, msg.hasMedia)
      case Calories(caption) => r == HandleCalories(c, msg, caption, download, host, provider, now, stamp)
      case Science(topic) => r == HandleScience(c, msg, topic, provider, host.parseJson)
      case Ask(prompt) => r == HandleAsk(c, msg, prompt, provider, host.parseJson)
      case MediaOnly => r == HandleMedia(c, msg, download, host, provider, stamp)
      case NoCommand => r == []
  {
    match Dispatch(msg.body, msg.hasMedia)
    case Calories(caption) => HandleCalories(c, msg, caption, download, host, provider, now, stamp)
    case Science(topic) => HandleScience(c, msg, topic, provider, host.parseJson)
    case Ask(prompt) => HandleAsk(c, msg, prompt, provider, host.parseJson)
    case MediaOnly => HandleMedia(c, msg, download, host, provider, stamp)
    case NoCommand => []
  }

  /** `!calories` with media runs the calorie estimate on its caption. */
  lemma CaloriesRouteRuns(c: OpenRouterClient, msg: IncomingMessage, download: Result<Option<Media>>,
                          host: Host, provider: Provider, now: int, stamp: string)
    requires msg.hasMedia && Selects(msg.body, CaloriesPrefix)
    ensures HandleMessage(c, msg, download, host, provider, now, stamp)
      == HandleCalories(c, msg, Argument(msg.body, CaloriesPrefix), download, host, provider, now, stamp)
  {
  }

  /** `!science` runs the science brief on its topic, with or without media. */
  lemma ScienceRouteRuns(c: OpenRouterClient, msg: IncomingMessage, download: Result<Option<Media>>,
                         host: Host, provider: Provider, now: int, stamp: string)
    requires Selects(msg.body, SciencePrefix)
    ensures HandleMessage(c, msg, download, host, provider, now, stamp)
      == HandleScience(c, msg, Argument(msg.body, SciencePrefix), provider, host.parseJson)
  {
  }

  /** `!ask` runs the ask handler on its argument, with or without media. */
  lemma AskRouteRuns(c: OpenRouterClient, msg: IncomingMessage, download: Result<Option<Media>>,
                     host: Host, provider: Provider, now: int, stamp: string)
    requires Selects(msg.body, AskPrefix)
    ensures HandleMessage(c, msg, download, host, provider, now, stamp)
      == HandleAsk(c, msg, Argument(msg.body, AskPrefix), provider, host.parseJson)
  {
  }

  /** A media message with no command runs the media handler. */
  lemma MediaRouteRuns(c: OpenRouterClient, msg: IncomingMessage, download: Result<Option<Media>>,
                       host: Host, provider: Provider, now: int, stamp: string)
    requires msg.hasMedia && !Selects(msg.body, CaloriesPrefix) && !Selects(msg.body, SciencePrefix) && !Selects(msg.body, AskPrefix)
    ensures HandleMessage(c, msg, download, host, provider, now, stamp) == HandleMedia(c, msg, download, host, provider, stamp)
  {
  }

  /** A text message with no `!science` or `!ask` prefix has no effect, even
      one that starts with `!calories`. */
  lemma NoRouteIsSilent(c: OpenRouterClient, msg: IncomingMessage, download: Result<Option<Media>>,
                        host: Host, provider: Provider, now: int, stamp: string)
    requires !msg.hasMedia && !Selects(msg.body, SciencePrefix) && !Selects(msg.body, AskPrefix)
    ensures HandleMessage(c, msg, download, host, provider, now, stamp) == []
  {
  }

  lemma HandleMessageAsks(c: OpenRouterClient, msg: IncomingMessage, download: Result<Option<Media>>,
                          host: Host, provider: Provider, now: int, stamp: string, prompt: string)
    requires Dispatch(msg.body, msg.hasMedia) == Ask(prompt)
    ensures HandleMessage(c, msg, download, host, provider, now, stamp) == HandleAsk(c, msg, prompt, provider, host.parseJson)
  {
  }

  lemma BareAskIncoming(p: string)
    requires ToLower(p) == AskPrefix
    ensures Incoming(Some(p)) == p
  {
    PrefixLetters();
    BangFirst(p, AskPrefix);
    assert !IsSpace(p[|p| - 1]) by {
      assert LowerChar(p[|p| - 1]) == AskPrefix[3];
    }
    TrimOfTrimmed(p);
  }

  lemma BareAskSelects(p: string)
    requires ToLower(p) == AskPrefix && Incoming(Some(p)) == p
    ensures Selects(Some(p), AskPrefix) && !Selects(Some(p), SciencePrefix)
    ensures Argument(Some(p), AskPrefix) == ""
  {
    assert Selects(Some(p), AskPrefix);
    assert p[|AskPrefix|..] == "";
    PrefixLetters();
    PrefixExcludes(Some(p), AskPrefix, SciencePrefix, 1);
  }

  /** A bare `!ask`, in any case, selects the ask handler with an empty
      prompt. */
  lemma BareAskDispatch(p: string)
    requires ToLower(p) == AskPrefix
    ensures Dispatch(Some(p), false) == Ask("")
  {
    BareAskIncoming(p);
    BareAskSelects(p);
    assert RouteOf(Some(p), false) == AskRoute;
  }

  /** A bare `!ask` gets the usage reply whatever the client and the
      provider. */
  lemma BareAskGetsUsage(c: OpenRouterClient, from: string, p: string, id: Option<MessageId>,
                         download: Result<Option<Media>>, host: Host, provider: Provider, now: int, stamp: string)
    requires ToLower(p) == AskPrefix
    ensures HandleMessage(c, IncomingMessage(from, Some(p), false, id), download, host, provider, now, stamp) == [Reply(AskUsage)]
  {
    var msg := IncomingMessage(from, Some(p), false, id);
    BareAskDispatch(p);
    HandleMessageAsks(c, msg, download, host, provider, now, stamp, "");
  }

  // ---------------------------------------------------------------------------
  // The meal log
  // ---------------------------------------------------------------------------

  /** The JSON form of an estimate, under the interface's field names. */
  function EstimateJson(est: CalorieEstimate): JsonValue {
    JObject(map["kcal_low" := JNumber(est.kcalLow), "kcal_high" := JNumber(est.kcalHigh),
                "protein_g" := JNumber(est.proteinG), "carbs_g" := JNumber(est.carbsG),
                "fat_g" := JNumber(est.fatG), "notes" := JString(est.notes)])
  }

  function EntryJson(e: MealEntry): JsonValue {
    JObject(map["ts" := JNumber(e.ts as real), "caption" := JString(e.caption),
                "estimate" := EstimateJson(e.estimate), "imagePath" := JString(e.imagePath)])
  }

  /** An object with a `meals` array. */
  predicate IsMealLog(v: JsonValue) {
    v.JObject? && "meals" in v.fields && v.fields["meals"].JArray?
  }

  const EmptyLog: JsonValue := JObject(map["meals" := JArray([])])

  function Meals(log: JsonValue): seq<JsonValue>
    requires IsMealLog(log)
  {
    log.fields["meals"].items
  }

  /** `<sanitised jid>.json` (the data directory left out). */
  function MealLogPath(jid: string): string {
    SanitizeFilename(jid) + ".json"
  }

  /** The log as read back: the parsed file when it is a meal log, else the
      empty log (missing file, unparsable text, or the wrong shape). */
  function StoredLog(files: map<string, string>, path: string, parseJson: string -> Option<JsonValue>): (r: JsonValue)
    ensures IsMealLog(r)
    ensures path in files && parseJson(files[path]).Some? && IsMealLog(parseJson(files[path]).value) ==>
      r == parseJson(files[path]).value
    ensures !(path in files && parseJson(files[path]).Some? && IsMealLog(parseJson(files[path]).value)) ==>
      Meals(r) == [] && r == EmptyLog
  {
    if path in files && parseJson(files[path]).Some? && IsMealLog(parseJson(files[path]).value) then
      parseJson(files[path]).value
    else EmptyLog
  }

  /** `current.meals.push(entry)`: the entry goes last, nothing else of the
      log changes. */
  function WithMeal(log: JsonValue, entry: JsonValue): (r: JsonValue)
    requires IsMealLog(log)
    ensures IsMealLog(r) && Meals(r) == Meals(log) + [entry]
    ensures r.fields.Keys == log.fields.Keys
    ensures forall k :: k in log.fields && k != "meals" ==> r.fields[k] == log.fields[k]
  {
    JObject(log.fields["meals" := JArray(Meals(log) + [entry])])
  }

  /** The log files, by name, holding their text. */
  class MealLogStore {
    var files: map<string, string>

    constructor(files0: map<string, string>)
      ensures files == files0
    {
      files := files0;
    }

    /** `appendMealLog`: read and repair the chat's log, push the entry and
        write the log back; no other file changes. */
    method AppendMealLog(jid: string, entry: MealEntry, parseJson: string -> Option<JsonValue>, stringify: JsonValue -> string)
      modifies this
      ensures files == old(files)[MealLogPath(jid) := stringify(WithMeal(StoredLog(old(files), MealLogPath(jid), parseJson), EntryJson(entry)))]
    {
      var path := MealLogPath(jid);
      var current := EmptyLog;
      if path in files {
        var parsed := parseJson(files[path]);
        if parsed.Some? && IsMealLog(parsed.value) {
          current := parsed.value;
        }
      }
      var meals := Meals(current) + [EntryJson(entry)];
      current := JObject(current.fields["meals" := JArray(meals)]);
      files := files[path := stringify(current)];
    }
  }

  /** When the codec reads back what it writes, each append adds exactly its
      entry after the earlier ones, and other chats' logs are untouched. */
  lemma AppendExtendsLog(files: map<string, string>, jid: string, other: string, entry: MealEntry,
                         parseJson: string -> Option<JsonValue>, stringify: JsonValue -> string)
    requires forall v :: parseJson(stringify(v)) == Some(v)
    requires other != MealLogPath(jid)
    ensures var path := MealLogPath(jid);
      var after := files[path := stringify(WithMeal(StoredLog(files, path, parseJson), EntryJson(entry)))];
      Meals(StoredLog(after, path, parseJson)) == Meals(StoredLog(files, path, parseJson)) + [EntryJson(entry)]
      && StoredLog(after, other, parseJson) == StoredLog(files, other, parseJson)
  {
    var path := MealLogPath(jid);
    var w := WithMeal(StoredLog(files, path, parseJson), EntryJson(entry));
    assert parseJson(stringify(w)) == Some(w);
  }

  // ---------------------------------------------------------------------------
  // Start-up messages
  // ---------------------------------------------------------------------------

  const InitialPrefix: string := "FitBOT Initialised - Chat Summary module enabled"

  /** The `ordinal`-th start-up payload. */
  function InitialPayload(ordinal: nat): string {
    InitialPrefix + ". Test message " + NatToString(ordinal) + "."
  }

  /** Each payload is the fixed text followed by its ordinal and a full stop. */
  lemma InitialPayloadShape(ordinal: nat)
    ensures StartsWith(InitialPayload(ordinal), InitialPrefix + ". Test message ")
    ensures EndsWith(InitialPayload(ordinal), NatToString(ordinal) + ".")
  {
    var p := InitialPrefix + ". Test message ";
    var d := NatToString(ordinal) + ".";
    var r := InitialPayload(ordinal);
    assert r == p + d;
    assert r[..|p|] == p;
    assert r[|r| - |d|..] == d;
  }

  /** Different ordinals give different payloads. */
  lemma InitialPayloadsDistinct(i: nat, j: nat)
    requires i != j
    ensures InitialPayload(i) != InitialPayload(j)
  {
    var p := InitialPrefix + ". Test message ";
    var a, b := NatToString(i), NatToString(j);
    var x, y := InitialPayload(i), InitialPayload(j);
    assert a != b by {
      assert DigitsValue(a) != DigitsValue(b);
    }
    if |a| == |b| {
      assert x[|p|..|p| + |a|] == a;
      assert y[|p|..|p| + |b|] == b;
    } else {
      assert |x| != |y|;
    }
  }

  /** The sends `sendInitialMessages` attempts: none for an empty JID or a
      non-positive count, else `count` payloads numbered from 1. */
  function InitialSends(jid: string, count: int): (r: seq<Outgoing>)
    ensures jid == "" || count <= 0 ==> r == []
    ensures jid != "" && count > 0 ==> |r| == count
    ensures forall i :: 0 <= i < |r| ==> r[i] == Outgoing(jid, InitialPayload(i + 1))
  {
    if jid == "" || count <= 0 then []
    else seq(count, i requires 0 <= i < count => Outgoing(jid, InitialPayload(i + 1)))
  }

  /** `sendInitialMessages`: every payload is attempted in order; `delivers`
      says which sends succeed, and a failed one does not stop the loop. */
  method SendInitialMessages(jid: string, count: int, delivers: Outgoing -> bool)
    returns (attempted: seq<Outgoing>, delivered: seq<Outgoing>)
    ensures attempted == InitialSends(jid, count)
    ensures delivered == FilterBy(attempted, delivers)
  {
    attempted, delivered := [], [];
    if jid == "" || count <= 0 {
      return;
    }
    attempted, delivered := SendEach(InitialSends(jid, count), delivers);
  }

  /** The loop of `sendInitialMessages`: each send is attempted in turn,
      whatever became of the earlier ones. */
  method SendEach(payloads: seq<Outgoing>, delivers: Outgoing -> bool)
    returns (attempted: seq<Outgoing>, delivered: seq<Outgoing>)
    ensures attempted == payloads
    ensures delivered == FilterBy(payloads, delivers)
  {
    attempted, delivered := [], [];
    for i := 0 to |payloads|
      invariant attempted == payloads[..i]
      invariant delivered == FilterBy(attempted, delivers)
    {
      var m := payloads[i];
      FilterBySnoc(attempted, m, delivers);
      if delivers(m) {
        delivered := delivered + [m];
      }
      attempted := attempted + [m];
      assert payloads[..i + 1] == payloads[..i] + [m];
    }
    assert payloads[..|payloads|] == payloads;
  }

  // ---------------------------------------------------------------------------
  // Top chats
  // ---------------------------------------------------------------------------

  datatype ChatId = ChatId(serialized: Option<string>, user: Option<string>)

  /** The fields of a chat `logTopChats` reads. */
  datatype Chat = Chat(id: Option<ChatId>, name: Option<string>, timestamp: Option<int>, isGroup: bool)

  /** `Boolean(chat.id?._serialized)`. */
  predicate HasSerializedId(chat: Chat) {
    chat.id.Some? && Present(chat.id.value.serialized)
  }

  function Recency(chat: Chat): int {
    chat.timestamp.GetOr(0)
  }

  /** The sort key: ascending in it is descending in the timestamp. */
  function NegRecency(chat: Chat): int {
    -Recency(chat)
  }

  /** Where `slice(0, limit)` ends in a list of length `n`: a negative limit
      counts from the end. */
  function SliceEnd(n: nat, limit: int): (r: nat)
    ensures r <= n
    ensures limit >= 0 ==> r == if limit <= n then limit else n
    ensures limit < 0 ==> r == if n + limit >= 0 then n + limit else 0
  {
    if limit >= 0 then (if limit <= n then limit else n)
    else if n + limit >= 0 then n + limit else 0
  }

  /** The identified chats, newest first. */
  function ChatsByRecency(chats: seq<Chat>): seq<Chat> {
    SortBy(FilterBy(chats, HasSerializedId), NegRecency)
  }

  /** The filter, the newest-first sort and the limit of `logTopChats`. */
  function TopChats(chats: seq<Chat>, limit: int): (r: seq<Chat>)
    ensures forall i :: 0 <= i < |r| ==> r[i] in chats && HasSerializedId(r[i])
  {
    var sorted := ChatsByRecency(chats);
    var r := sorted[..SliceEnd(|sorted|, limit)];
    assert forall i :: 0 <= i < |r| ==> r[i] in multiset(sorted);
    r
  }

  /** The listed chats are identified chats of the input, newest first, at
      most `limit` of them (all when fewer), and no identified chat left out
      is newer than a listed one; no chat is listed more often than the
      input holds it. */
  lemma TopChatsSpec(chats: seq<Chat>, limit: nat)
    ensures var r := TopChats(chats, limit);
      var n := |FilterBy(chats, HasSerializedId)|;
      |r| == (if limit <= n then limit else n)
      && (forall i :: 0 <= i < |r| ==> r[i] in chats && HasSerializedId(r[i]))
      && (forall i, j :: 0 <= i < j < |r| ==> Recency(r[i]) >= Recency(r[j]))
      && (forall x, i :: x in chats && HasSerializedId(x) && x !in r && 0 <= i < |r| ==> Recency(x) <= Recency(r[i]))
    ensures multiset(TopChats(chats, limit)) <= multiset(FilterBy(chats, HasSerializedId))
  {
    TopChatsIsPrefix(chats, limit);
    TopChatsLeftOutOlder(chats, limit);
    TopChatsFromFiltered(chats, limit);
  }

  /** The listing is a prefix of the sorted identified chats, which are as
      many as the identified chats. */
  lemma TopChatsIsPrefix(chats: seq<Chat>, limit: int)
    ensures var sorted := ChatsByRecency(chats);
      |sorted| == |FilterBy(chats, HasSerializedId)|
      && TopChats(chats, limit) == sorted[..SliceEnd(|sorted|, limit)]
  {
    var f := FilterBy(chats, HasSerializedId);
    var sorted := ChatsByRecency(chats);
    assert |multiset(sorted)| == |multiset(f)|;
  }

  /** A chat the slice cut off is no newer than any listed one. */
  lemma TopChatsLeftOutOlder(chats: seq<Chat>, limit: int)
    ensures var r := TopChats(chats, limit);
      forall x, i :: x in chats && HasSerializedId(x) && x !in r && 0 <= i < |r| ==> Recency(x) <= Recency(r[i])
  {
    var f := FilterBy(chats, HasSerializedId);
    var sorted := ChatsByRecency(chats);
    var r := TopChats(chats, limit);
    var k := SliceEnd(|sorted|, limit);
    TopChatsIsPrefix(chats, limit);
    forall x, i | x in chats && HasSerializedId(x) && x !in r && 0 <= i < |r| ensures Recency(x) <= Recency(r[i]) {
      assert x in multiset(f);
      assert x in sorted;
      var j :| 0 <= j < |sorted| && sorted[j] == x;
      assert forall t :: 0 <= t < k ==> sorted[t] == r[t];
      assert j >= k;
      assert r[i] == sorted[i];
      assert NegRecency(sorted[i]) <= NegRecency(sorted[j]);
    }
  }

  /** The listed chats are drawn from the identified ones without
      repetition beyond the input's own. */
  lemma TopChatsFromFiltered(chats: seq<Chat>, limit: int)
    ensures multiset(TopChats(chats, limit)) <= multiset(FilterBy(chats, HasSerializedId))
  {
    var sorted := ChatsByRecency(chats);
    var k := SliceEnd(|sorted|, limit);
    assert sorted == sorted[..k] + sorted[k..];
    assert multiset(sorted) == multiset(FilterBy(chats, HasSerializedId));
  }

  /** The label a listed chat is shown with: its name, else its user, else
      its JID. */
  function ChatLabel(chat: Chat): (r: string)
    requires HasSerializedId(chat)
    ensures chat.name.Some? ==> r == chat.name.value
    ensures chat.name.None? && chat.id.value.user.Some? ==> r == chat.id.value.user.value
    ensures chat.name.None? && chat.id.value.user.None? ==> r == chat.id.value.serialized.value && r != ""
  {
    var options := [chat.name, chat.id.value.user];
    assert options[0] == chat.name && options[1] == chat.id.value.user;
    FirstDefined(options, chat.id.value.serialized.value)
  }

  /** `${index + 1}. [${kind}] ${label} (${jid})`. */
  function ChatLine(index: nat, chat: Chat): string
    requires HasSerializedId(chat)
  {
    NatToString(index + 1) + ". [" + ChatKind(chat) + "] " + (ChatLabel(chat) + " (" + chat.id.value.serialized.value + ")")
  }

  /** A listed line starts with its 1-based number and the chat's kind, and
      ends with the chat's JID in parentheses; the number reads back as the
      position plus one. */
  lemma ChatLineShape(index: nat, chat: Chat)
    requires HasSerializedId(chat)
    ensures var r := ChatLine(index, chat);
      StartsWith(r, NatToString(index + 1) + ". [" + ChatKind(chat) + "] ")
      && EndsWith(r, " (" + chat.id.value.serialized.value + ")")
      && DigitsValue(r[..|NatToString(index + 1)|]) == index + 1
  {
    var number := NatToString(index + 1);
    var head := number + ". [" + ChatKind(chat) + "] ";
    var tail := " (" + chat.id.value.serialized.value + ")";
    var r := ChatLine(index, chat);
    assert r == head + (ChatLabel(chat) + tail);
    assert r[..|head|] == head;
    assert r[..|number|] == head[..|number|] == number;
    assert r[|r| - |tail|..] == tail;
  }

  /** `chat.isGroup ? 'group' : 'chat'`. */
  function ChatKind(chat: Chat): string {
    if chat.isGroup then "group" else "chat"
  }

  /** One numbered line per listed chat, in order. */
  function ChatLines(top: seq<Chat>): (r: seq<string>)
    requires forall i :: 0 <= i < |top| ==> HasSerializedId(top[i])
    ensures |r| == |top|
    ensures forall i :: 0 <= i < |r| ==> r[i] == ChatLine(i, top[i])
  {
    seq(|top|, i requires 0 <= i < |top| => ChatLine(i, top[i]))
  }

  /** The lines `logTopChats` prints for the chats it fetched. */
  function TopChatsReport(chats: seq<Chat>, limit: int): (r: seq<string>)
    ensures chats == [] ==> r == ["\U{1F4ED} No chats available yet."]
    ensures chats != [] ==> |r| == 1 + |TopChats(chats, limit)|
    ensures chats != [] ==> r[0] == "\U{1F4C7} Top " + NatToString(|TopChats(chats, limit)|) + " chats by recent activity:"
    ensures chats != [] ==> r[1..] == ChatLines(TopChats(chats, limit))
  {
    if chats == [] then ["\U{1F4ED} No chats available yet."]
    else
      var top := TopChats(chats, limit);
      var r := ["\U{1F4C7} Top " + NatToString(|top|) + " chats by recent activity:"] + ChatLines(top);
      assert r[1..] == ChatLines(top);
      r
  }
}
