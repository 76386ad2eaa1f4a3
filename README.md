# FitBOT core model

A Dafny model of the deterministic core of FitBOT. FitBOT is a WhatsApp bot that sends its commands to an LLM through OpenRouter, together with the coach dashboard of its mobile app. The model covers the following:

- **Prompt library** (`ModulePrompt`): the command table and the prompt templates, with their placeholders located.
- **OpenRouter client** (`OpenRouter`):
  - client construction and defaulting;
  - the text and image request payloads and the image-source rules;
  - the request headers;
  - response normalisation and the error cases of a completion request.
- **Calorie estimator** (`PlateCalorieEstimator`):
  - the instruction prompt;
  - the tolerant numeric coercion and the JSON candidate extraction;
  - the all-zero guard;
  - rendering of estimates;
  - data URLs;
  - the wiring to the image request, as written and corrected.
- **Science brief and QnA** (`ScienceBrief`, `QnaTemplate`): prompt building by placeholder replacement, and the order of the validation, enabled and call steps.
- **Chat summary** (`ChatSummary`):
  - whitespace sanitising;
  - author and body labels;
  - the transcript and its 9000-character tail;
  - recent-message selection and sorting;
  - the summary prompt, as written and corrected;
  - the message the command sends in each case.
- **Bot** (`Bot`, `src/index.ts`):
  - command dispatch;
  - the `!ask`, `!science`, `!calories` and media handlers, as ordered lists of effects (replies, reactions, sends, saved files, meal-log appends);
  - media file naming;
  - the per-chat meal log, as a class over a file map;
  - the start-up messages, as a loop;
  - the top-chats listing.
- **Dashboard** (`Dashboard`, `ui/mobile/app/index.tsx`):
  - the per-client configuration map and its update by overlaying;
  - view, selection and tab transitions, as a class with methods;
  - the grid layout arithmetic;
  - content selection and scroll padding.

`Text`, `Json`, `Sorting`, `Runtime` and `Wrappers` hold the JavaScript built-ins the core relies on:

- `Text`: `trim`, `toLowerCase`, `startsWith`, `endsWith`, `String.replace` with a string pattern, `join`, `indexOf` and `filter(Boolean)`.
- `Json`: a JSON value type, its truthiness and its conversion to a string (`String(v)`).
- `Sorting`: `filter`, and a stable sort by key.
- `Runtime`: the host services.
- `Wrappers`: `Option` and `Result`.

Host services (file reads, `mime.lookup`, `mime.extension`, `JSON.parse`, `JSON.stringify`) are function-typed parameters. The HTTP exchange with OpenRouter is a `Provider` parameter that maps the request headers and a payload to a response. The clock, ISO-time rendering and the outcome of each start-up send are also parameters; every other send, reaction and file write is an effect that is assumed to succeed. A thrown error is an `Err` value.

## Model

| member | source | states |
|---|---|---|
| ModulePrompt.Command | src/modulePrompt.ts:7-12 | every command is a slash followed by its name |
| ModulePrompt.CommandsDistinct | src/modulePrompt.ts:7-12 | two commands have the same trigger exactly when they are the same command |
| ModulePrompt.SummaryTemplateTranscriptOnce | src/modulePrompt.ts:29-37 | the summary template is its fixed lines followed by `{{TRANSCRIPT}}`, which occurs exactly once, at the end |
| ModulePrompt.SummaryTemplateLacksOtherPlaceholders | src/modulePrompt.ts:29-37 | the summary template contains neither `{{SUMMARY_PREF}}` nor `{{CONTEXT_BLOCK}}` |
| ModulePrompt.QnaTemplateShape | src/modulePrompt.ts:58-66 | the QnA template is the question line, the context line and the reply instructions joined by newlines |
| ModulePrompt.QnaTemplateSlots | src/modulePrompt.ts:58-66 | `{{QUESTION}}` first occurs right after `User: `, and `{{CONTEXT_SECTION}}` occurs |
| ModulePrompt.QnaTemplateOccurrences | src/modulePrompt.ts:58-66 | `{{QUESTION}}` and `{{CONTEXT_SECTION}}` each occur at exactly one position, and `{{ASK_PREF}}` does not occur |
| ModulePrompt.CalorieTemplateHasCaption | src/modulePrompt.ts:84-100 | the calorie template contains `{{CAPTION_LINE}}` |
| ModulePrompt.CalorieTemplateNestedShape | src/modulePrompt.ts:84-100 | the calorie template asks for macros as `{ "low", "high" }` objects and for notes as an object |
| ModulePrompt.ScienceTemplatePlaceholders | src/modulePrompt.ts:116-134 | the science template contains `{{TOPIC}}` and `{{CONTEXT_SECTION}}` |
| OpenRouter.NewClient | src/openrouter.ts:62-68 | the text model defaults to `allenai/olmo-3-32b-think` only when none is given, the vision model defaults to the resolved text model, and the key, referer and title are kept |
| OpenRouter.TextModelEmptyIff | src/openrouter.ts:64 | the text model is empty exactly when an empty one was passed explicitly |
| OpenRouter.EnabledAuthorization | src/openrouter.ts:70-72 | the client is enabled exactly when its key is present and non-empty; an enabled client authorises with `Bearer <key>`, and a disabled one would send `Bearer ` followed by nothing or by `undefined` |
| OpenRouter.TextPayload | src/openrouter.ts:79-86 | a text request uses the text model, temperature 0.7, no token limit, and exactly a system message and then a user message |
| OpenRouter.ImageSource | src/openrouter.ts:94-106 | an image path overrides inline data, an unreadable path fails, and the media type comes from the path lookup, else the one supplied, else `image/jpeg`; missing data or an empty media type is the "Image data and mimeType are required" error |
| OpenRouter.ImageMessages | src/openrouter.ts:110-120 | a system message is present exactly when a non-empty system text is given; the user message is the instruction (or the default instruction) followed by the `data:<mime>;base64,<data>` URL |
| OpenRouter.ImagePayload | src/openrouter.ts:89-127 | an empty vision model is an error, image-source errors propagate, and a payload uses the vision model with temperature defaulting to 0.2 and max tokens defaulting to 300 |
| OpenRouter.ImagePayloadBuilt | src/openrouter.ts:103-126 | with a vision model and a resolved image, the payload is exactly the vision model, the prompt-and-image messages built from that image, and the defaulted temperature and max tokens |
| OpenRouter.BuildImagePayload | src/openrouter.ts:110-127 | the message list built step by step is the payload `ImagePayload` describes |
| OpenRouter.ChoiceContent | src/openrouter.ts:146-147 | reading `choices[0].message.content` fails only on a `null` response body, gives nothing when the body is not an object, and for a reply whose first choice has a message object gives that message's `content`, or nothing when it has none |
| OpenRouter.Pieces | src/openrouter.ts:185-196 | a string element maps to itself, an object with a non-null `text` maps to that value whatever its type, and every other element maps to the empty string |
| OpenRouter.NormalizeContent | src/openrouter.ts:174-208 | a falsy value gives `""`, a string gives its trimmed form, an array gives the trimmed newline join of its truthy pieces written as strings, every result is trimmed, an object with a string `text` gives that text trimmed, any other truthy value without a non-null `text` gives `""`, and the only error is reading `.trim()` of a non-string, non-null `text` field |
| OpenRouter.NormalizeIgnoresFalsyParts | src/openrouter.ts:183-199 | inserting anywhere an array element whose piece is falsy (no usable text, an empty string, `0`, `false`) does not change the normalised content |
| OpenRouter.FalsyPiecesDropped | src/openrouter.ts:197-198 | a falsy piece is filtered out before the pieces are joined |
| OpenRouter.TruthyPieceKept | src/openrouter.ts:197-198 | a truthy piece stays in its place among the joined lines, written as a string |
| OpenRouter.NumericTextKept | src/openrouter.ts:190-192 | `[{"text": 5}]` normalises to `5` |
| OpenRouter.EmptyArrayTextKept | src/openrouter.ts:183-199 | `["a", {"text": []}, "b"]` normalises to `a`, an empty line and `b`, since an empty array is truthy and is written as the empty string |
| OpenRouter.NormalizeStrings | src/openrouter.ts:183-199 | an array of strings normalises to its non-empty strings joined by newlines, then trimmed |
| OpenRouter.RequestCompletion | src/openrouter.ts:130-155 | without a key the result is the "API key is missing" error before any request; the request carries the client's headers; a non-2xx status gives an error naming the status and the body; a success is non-empty and trimmed |
| OpenRouter.EmptyContentIsError | src/openrouter.ts:148-152 | an OK response whose content normalises to `""` is the "returned an empty response" error |
| OpenRouter.CompletionIsContent | src/openrouter.ts:146-154 | an OK response whose content normalises to a non-empty text gives exactly that text |
| OpenRouter.CompletionNetworkFailure | src/openrouter.ts:135-139 | a request that fails to reach the server is the error of that failure |
| OpenRouter.CompletionUnparsed | src/openrouter.ts:146 | an OK response whose body is not JSON is an error |
| OpenRouter.CompletionUnreadable | src/openrouter.ts:146-147 | an OK response whose choice cannot be read is that reading error |
| OpenRouter.CompletionUntrimmable | src/openrouter.ts:147-148 | an OK response whose content cannot be normalised is that normalising error |
| OpenRouter.GenerateText | src/openrouter.ts:74-87 | an empty text model is an error, and otherwise the result is the completion of the text payload |
| OpenRouter.DescribeImage | src/openrouter.ts:89-128 | payload errors propagate, and otherwise the result is the completion of the image payload |
| OpenRouter.DescribeImageNeedsImage | src/openrouter.ts:97-106 | with no image path and no inline data or media type, describing an image fails, with the missing-image error when a vision model is set |
| OpenRouter.Headers | src/openrouter.ts:157-172 | the headers always hold the JSON content type and `Bearer <key>`; they hold `HTTP-Referer` and `X-Title` exactly when those are non-empty, and no other keys |
| OpenRouter.BuildHeaders | src/openrouter.ts:157-172 | the record filled in one header at a time is exactly the headers every request is sent with |
| PlateCalorieEstimator.InstructionLinesNonEmpty | src/plateCalorieEstimator.ts:16-22 | none of the six fixed instruction lines is empty, so `filter(Boolean)` keeps them all |
| PlateCalorieEstimator.CaptionLine | src/plateCalorieEstimator.ts:15-23 | the caption line is empty exactly when the trimmed caption is, and is otherwise `Caption: ` and the trimmed caption |
| PlateCalorieEstimator.BuildCaloriePrompt | src/plateCalorieEstimator.ts:14-25 | the prompt is the instructions, with a seventh line for the caption exactly when the trimmed caption is non-empty |
| PlateCalorieEstimator.CaloriePromptTrimInvariant | src/plateCalorieEstimator.ts:14-25 | trimming the caption first does not change the prompt |
| PlateCalorieEstimator.CleanNumeral | src/plateCalorieEstimator.ts:30 | removing the characters outside `0-9 . -` keeps every allowed character, drops everything else and never lengthens the text |
| PlateCalorieEstimator.CleanNumeralConcat | src/plateCalorieEstimator.ts:30 | cleaning works piecewise on a concatenation |
| PlateCalorieEstimator.ParseUnsigned | src/plateCalorieEstimator.ts:31 | a number is read exactly when the text starts with a digit, or with `.` and a digit, and it is never negative |
| PlateCalorieEstimator.ParseFloat | src/plateCalorieEstimator.ts:31 | `parseFloat` reads a number exactly when, after an optional `-`, the text starts with a digit or with `.` and a digit; a negative result needs the leading `-` |
| PlateCalorieEstimator.ParseUnsignedDecimalPrefix | src/plateCalorieEstimator.ts:31 | `<digits>.<digits>` followed by anything that does not start with a digit reads as that decimal, whatever follows |
| PlateCalorieEstimator.ParseUnsignedIntegerPrefix | src/plateCalorieEstimator.ts:31 | digits followed by anything that starts with neither a digit nor `.` read as that integer |
| PlateCalorieEstimator.ParseFloatSign | src/plateCalorieEstimator.ts:31 | a leading `-` negates what the rest reads as, and a text the rest does not read gives no number |
| PlateCalorieEstimator.ParseFloatDecimalPrefix | src/plateCalorieEstimator.ts:31 | an optionally signed decimal prefix is read and the rest of the text is ignored |
| PlateCalorieEstimator.ParseFloatIntegerPrefix | src/plateCalorieEstimator.ts:31 | an optionally signed integer prefix is read and the rest of the text is ignored |
| PlateCalorieEstimator.CoerceNumber | src/plateCalorieEstimator.ts:27-35 | a number is kept; a string that parses after cleaning gives the value `parseFloat` reads from the cleaned text; a string that does not parse, or any value that is neither a number nor a string, gives 0 |
| PlateCalorieEstimator.ParseDigits | src/plateCalorieEstimator.ts:31 | a run of digits parses to its decimal value |
| PlateCalorieEstimator.ParseDecimal | src/plateCalorieEstimator.ts:31 | `<digits>.<digits>` parses to its decimal value |
| PlateCalorieEstimator.ParseFloatInt | src/plateCalorieEstimator.ts:31 | the decimal text of every integer parses back to that integer |
| PlateCalorieEstimator.CoerceNumberIgnoresJunk | src/plateCalorieEstimator.ts:29-32 | an integer surrounded by characters outside `0-9 . -` is coerced to that integer |
| PlateCalorieEstimator.CoerceNumberDecimal | src/plateCalorieEstimator.ts:29-32 | a decimal string such as `500.5` is coerced to its value |
| PlateCalorieEstimator.CoerceExampleTrailingLetters | src/plateCalorieEstimator.ts:29-32 | `"300abc"` is coerced to 300 |
| PlateCalorieEstimator.CoerceExampleRange | src/plateCalorieEstimator.ts:29-32 | `"300-400 kcal"` is coerced to 300, the lower end of the range |
| PlateCalorieEstimator.CoerceExampleTwoPoints | src/plateCalorieEstimator.ts:29-32 | `"12.5.3"` is coerced to 12.5: a second point ends the number |
| PlateCalorieEstimator.CoerceExampleNegativeFraction | src/plateCalorieEstimator.ts:29-32 | `"-.5"` is coerced to -0.5 |
| PlateCalorieEstimator.CoerceExampleTrailingPoint | src/plateCalorieEstimator.ts:29-32 | `"5."` is coerced to 5 |
| PlateCalorieEstimator.ParseCandidate | src/plateCalorieEstimator.ts:39-40 | a text with no `{` followed later by a `}` is the candidate as a whole; otherwise the candidate starts with `{` and ends with `}` |
| PlateCalorieEstimator.CandidateOfEmbedded | src/plateCalorieEstimator.ts:39-40 | a braced object surrounded by brace-free text becomes the candidate |
| PlateCalorieEstimator.CandidateOfTrimmedEmbedded | src/plateCalorieEstimator.ts:38-40 | the same holds after trimming |
| PlateCalorieEstimator.EstimateFields | src/plateCalorieEstimator.ts:43-50 | notes are trimmed; a string `notes` field gives its trimmed text, and notes are non-empty only when such a field is there |
| PlateCalorieEstimator.EstimateFieldsNumbers | src/plateCalorieEstimator.ts:44-48 | each of the five numbers comes from its own key: a numeric field gives its value, and a missing field or a non-object reply gives 0 |
| PlateCalorieEstimator.FullReplyEstimate | src/plateCalorieEstimator.ts:43-50 | a reply with all five numbers and string notes gives exactly those numbers in their places and the trimmed notes |
| PlateCalorieEstimator.EstimateFromJson | src/plateCalorieEstimator.ts:42-57 | there is no estimate exactly when nothing parsed, the value is `null` or all five numbers coerce to 0; a returned estimate is never all zero |
| PlateCalorieEstimator.TryParseEstimate | src/plateCalorieEstimator.ts:37-58 | a returned estimate is never all zero and has trimmed notes; a parse failure gives no estimate; the result is undefined exactly when the parsed candidate yields none |
| PlateCalorieEstimator.EstimateFromEmbeddedJson | src/plateCalorieEstimator.ts:37-58 | a reply with an object embedded in brace-free prose is parsed as that object |
| PlateCalorieEstimator.PartialEstimate | src/plateCalorieEstimator.ts:43-54 | JSON with only `kcal_low`/`kcal_high`, not both zero, gives an estimate with the macros at 0 and empty notes |
| PlateCalorieEstimator.NonNumericEstimateRejected | src/plateCalorieEstimator.ts:27-57 | an object whose fields are all objects, arrays, booleans or null (as in the nested shape the calorie template asks for) gives no estimate |
| PlateCalorieEstimator.Round | src/plateCalorieEstimator.ts:62-63 | `Math.round`: the nearest integer, with halves rounding up |
| PlateCalorieEstimator.RoundOfInteger | src/plateCalorieEstimator.ts:62-63 | an integer rounds to itself |
| PlateCalorieEstimator.NotesLine | src/plateCalorieEstimator.ts:64 | the notes line is empty exactly when the notes are, and is otherwise `Notes: ` and the notes |
| PlateCalorieEstimator.RenderCalorieEstimate | src/plateCalorieEstimator.ts:60-67 | the rendering is the calories line, the macros line and, exactly when the notes are non-empty, the notes line, joined by newlines |
| PlateCalorieEstimator.BuildDataUrl | src/plateCalorieEstimator.ts:69-74 | a value already starting with `data:` is returned unchanged, and anything else becomes `data:<mime>;base64,<data>` |
| PlateCalorieEstimator.BuildDataUrlIdempotent | src/plateCalorieEstimator.ts:69-74 | building a data URL from a data URL gives it back |
| PlateCalorieEstimator.ParseDataUrl | src/plateCalorieEstimator.ts:73 | a parsed URL is exactly `data:` plus the media type, `;base64,` and the data |
| PlateCalorieEstimator.DataUrlRoundTrip | src/plateCalorieEstimator.ts:69-74 | parsing a built data URL recovers the media type and the data |
| PlateCalorieEstimator.ResolveImageDataUrl | src/plateCalorieEstimator.ts:76-96 | non-empty inline data wins, with the media type defaulting to `image/jpeg`; otherwise a path is read and typed by lookup, else by the supplied type, else `image/jpeg`; with neither the result is undefined |
| PlateCalorieEstimator.AsWrittenDescribeParams | src/plateCalorieEstimator.ts:111 | the call passes no inline data, no media type and no image path |
| PlateCalorieEstimator.EstimatePlateCaloriesAsWritten | src/plateCalorieEstimator.ts:106-113 | as written, estimating always fails, with the missing-image error once the image resolved and a vision model is set |
| PlateCalorieEstimator.CorrectedDescribeParams | src/plateCalorieEstimator.ts:108-111 | the request carries the calorie prompt, the nutrition system prompt, temperature 0.1 and 600 tokens |
| PlateCalorieEstimator.EstimatePlateCalories | src/plateCalorieEstimator.ts:106-113 | a returned estimate is never all zero |
| PlateCalorieEstimator.CorrectedSendsResolvedImage | src/plateCalorieEstimator.ts:106-113 | the corrected request is exactly the system prompt and then the calorie prompt with the resolved image URL, and its reply goes through the tolerant parser |
| PlateCalorieEstimator.CorrectedSendsBase64Image | src/plateCalorieEstimator.ts:83-86 | inline base64 data with a media type resolves to a data URL that splits back into that type and data |
| ScienceBrief.BriefHeadHasNoBrace | src/scienceBrief.ts:22-23 | the template text before `{{TOPIC}}` has no `{`, so the first `{{TOPIC}}` is the placeholder |
| ScienceBrief.BuildScienceBriefPrompt | src/scienceBrief.ts:41-48 | an empty trimmed topic is the "Topic is required" error; otherwise the result is the template with its `{{TOPIC}}` replaced by the trimmed topic |
| ScienceBrief.BriefTopicRecoverable | src/scienceBrief.ts:41-48 | the trimmed topic can be read back from the prompt between the fixed head and tail |
| ScienceBrief.BriefPromptTrimInvariant | src/scienceBrief.ts:42 | building from the trimmed topic gives the same result |
| ScienceBrief.GenerateScienceBrief | src/scienceBrief.ts:60-75 | the empty-topic error comes first, then the disabled error, and otherwise the result is generated text with this file's own science system prompt |
| QnaTemplate.SectionOrNone | src/qnaTemplate.ts:28-29 | the section is the trimmed text when that is non-empty, else `none` |
| QnaTemplate.BuildQnAPrompt | src/qnaTemplate.ts:18-36 | building fails exactly when the trimmed question is empty, with the "Question is required" error |
| QnaTemplate.QnaPromptFilled | src/qnaTemplate.ts:31-33 | for brace-free inputs the prompt is `User: <q>` then `Context: <c>` then the reply instructions |
| QnaTemplate.QnaPreferenceIgnored | src/qnaTemplate.ts:29-33 | for brace-free question and context, the ask preference never changes the prompt |
| QnaTemplate.QnaPreferenceReachesQuestion | src/qnaTemplate.ts:31-33 | a question that is literally `{{ASK_PREF}}` is replaced by the preference, so the preference can reach the prompt through the question |
| QnaTemplate.GenerateQnAResponse | src/qnaTemplate.ts:50-67 | the empty-question error comes first, then the disabled error, and otherwise the result is generated text from the built prompt with the QnA system prompt |
| ChatSummary.CollapseSpace | src/chatSummary.ts:101 | replacing each whitespace run by one space leaves no whitespace other than single spaces, keeps the non-space characters in order, and keeps emptiness and whether the text starts with whitespace |
| ChatSummary.CollapseBetweenWords | src/chatSummary.ts:101 | a whitespace run between a non-space end and a non-space start becomes exactly one space, and the two sides collapse on their own |
| ChatSummary.CollapseKeepsSolid | src/chatSummary.ts:101 | text without whitespace is kept as it is, whatever follows it |
| ChatSummary.CollapseFixed | src/chatSummary.ts:101 | collapsing already-collapsed text changes nothing |
| ChatSummary.CollapsedTrim | src/chatSummary.ts:101 | trimming collapsed text keeps it collapsed and leaves no whitespace at either end |
| ChatSummary.SanitizeWhitespace | src/chatSummary.ts:101 | the sanitised text has no leading or trailing whitespace, no two whitespace characters in a row, and the same non-space characters as the input |
| ChatSummary.SanitizeBetweenWords | src/chatSummary.ts:101 | two words separated by whitespace of any kind and length come out separated by exactly one space |
| ChatSummary.SanitizeIdempotent | src/chatSummary.ts:101 | sanitising twice is sanitising once |
| ChatSummary.ResolveAuthorLabel | src/chatSummary.ts:80-87 | own messages are `Me`; otherwise the first defined of notify name, push name, author and sender, else `Contact` |
| ChatSummary.AuthorLabelSource | src/chatSummary.ts:80-87 | the label is always `Me`, `Contact` or one of the message's own name fields |
| ChatSummary.ResolveMessageBody | src/chatSummary.ts:89-99 | a non-empty body is sanitised; otherwise `[media message]` for media and `[no text]` else; the result is always trimmed and collapsed |
| ChatSummary.Rows | src/chatSummary.ts:65-70 | there is one row per message, `[<time>] <author>: <body>` |
| ChatSummary.BuildTranscript | src/chatSummary.ts:64-78 | the transcript is the suffix of the joined rows of length min(length, 9000), and the whole joined rows when they fit |
| ChatSummary.TranscriptKeepsLastRow | src/chatSummary.ts:64-78 | when the last row fits the limit, the transcript ends with it |
| ChatSummary.RecentMessages | src/chatSummary.ts:41-43 | the recent messages are sorted by timestamp, no more than were fetched, and each is a fetched message with a non-zero timestamp at or after the cutoff |
| ChatSummary.RecentMessagesSpec | src/chatSummary.ts:41-43 | the recent messages are sorted by timestamp, are exactly those with a non-zero timestamp at or after the cutoff, and each keeps its multiplicity |
| ChatSummary.PreferenceText | src/chatSummary.ts:105 | the preference text is the trimmed preference when that is non-empty, else `not provided` |
| ChatSummary.BuildSummaryPromptAsWritten | src/chatSummary.ts:103-106 | as written, the summary prompt is the bare template for every transcript and preference, so the transcript never reaches the model |
| ChatSummary.BuildSummaryPrompt | src/chatSummary.ts:103-106 | the corrected prompt is the template's fixed lines followed by the transcript |
| ChatSummary.PromptCarriesTranscript | src/chatSummary.ts:103-106 | the transcript can be read back from the corrected prompt |
| ChatSummary.SummarizeRecentChat | src/chatSummary.ts:20-62 | a disabled client sends nothing; otherwise exactly one message goes to the chat's id or the jid: the "no messages" notice when nothing is recent, the header and the trimmed summary on success, and the failure notice on any error |
| Bot.RouteOf | src/index.ts:144-168 | `!calories` is taken exactly when the message has media; `!science` is taken exactly when its prefix matches; `!ask` exactly when its prefix matches and `!science` does not; the media handler runs exactly when nothing else matched a media message |
| Bot.Dispatch | src/index.ts:145-163 | each command is dispatched exactly when its route is taken, with the original-case text after its prefix, trimmed, as its argument |
| Bot.PrefixesExclusive | src/index.ts:148-163 | no message selects two of `!calories`, `!science` and `!ask` |
| Bot.RouteIgnoresCase | src/index.ts:145-146 | bodies that agree after trimming and lower-casing route the same way |
| Bot.SelectsUpToCase | src/index.ts:146 | prefix matching ignores case |
| Bot.PrefixExcludes | src/index.ts:148-163 | a body selected by one prefix is not selected by a prefix that differs from it at a shared position, so at most one of the three commands applies |
| Bot.SelectsPrefixed | src/index.ts:145-160 | `<prefix in any case> <argument>` selects that prefix, and its argument is the original-case text after it |
| Bot.ScienceArgumentKeepsCase | src/index.ts:153-156 | `!SCIENCE Topic` dispatches to science with the topic in its original case |
| Bot.AskArgumentKeepsCase | src/index.ts:159-162 | `!Ask Prompt` (without media) dispatches to ask with the prompt in its original case |
| Bot.CaloriesWithoutMediaIgnored | src/index.ts:148-168 | `!calories` without media runs no handler |
| Bot.HandleAsk | src/index.ts:170-191 | an empty prompt gets only the usage reply, before the enabled check; disabled gets only its reply; otherwise hourglass, then the answer sent and a check mark, or a warning and the failure reply |
| Bot.HandleScience | src/index.ts:193-214 | an empty topic gets only the usage reply, before the enabled check; disabled gets only its reply; otherwise test tube, then the brief sent and a check mark, or a warning and the failure reply |
| Bot.HandleCalories | src/index.ts:262-306 | disabled replies before any download; a failed download warns and replies with the failure; no media or a non-image gets the plate reaction and the attach reply; an image is saved and then estimated; a meal is logged only with an estimate that is sent right after |
| Bot.CalorieOutcome | src/index.ts:285-305 | an error warns with the failure reply, no estimate warns with the unreliable reply, and an estimate is logged, rendered, sent and confirmed |
| Bot.CalorieOutcomeLogs | src/index.ts:285-300 | the outcome logs a meal exactly when there is an estimate, and every logged estimate is non-zero and sent right after |
| Bot.HandleMedia | src/index.ts:329-356 | nothing happens without a payload; a payload is saved first and captioned only when it is an image, the client is enabled and the description succeeds |
| Bot.HandleMessage | src/index.ts:144-168 | the dispatched command decides the one handler that runs, or none |
| Bot.CaloriesRouteRuns | src/index.ts:148-151 | a media message starting with `!calories` in any case runs the calorie handler on the trimmed text after the prefix |
| Bot.ScienceRouteRuns | src/index.ts:153-157 | a message starting with `!science` in any case, with or without media, runs the science handler on the trimmed text after the prefix |
| Bot.AskRouteRuns | src/index.ts:159-163 | a message starting with `!ask` in any case, with or without media, runs the question handler on the trimmed text after the prefix |
| Bot.MediaRouteRuns | src/index.ts:165-167 | a media message with none of the three prefixes runs the media handler |
| Bot.NoRouteIsSilent | src/index.ts:144-168 | a text message starting with neither `!science` nor `!ask` has no effect, `!calories` without media included |
| Bot.BareAskGetsUsage | src/index.ts:159-174 | a bare `!ask` in any case gets exactly the usage reply |
| Bot.SanitizeFilename | src/index.ts:374-376 | the output has the input's length, only `[A-Za-z0-9-_.]` characters, allowed characters kept and all others replaced by `_` |
| Bot.SanitizeFixedIff | src/index.ts:374-376 | a name is left unchanged exactly when all its characters are allowed |
| Bot.SanitizeIdempotent | src/index.ts:374-376 | sanitising twice is sanitising once |
| Bot.FormatMessageId | src/index.ts:384-387 | the id is the serialised id, else the bare id, else `message` |
| Bot.MessageSlug | src/index.ts:378-382 | the slug is non-empty, starts with the message id and `-`, and the stamp is the rest of it |
| Bot.SlugsSeparateStamps | src/index.ts:378-382 | two slugs of the same message id are equal exactly when their stamps are |
| Bot.BaseName | src/index.ts:365 | a given file name is sanitised, a missing one falls back to the sanitised slug, and an empty result is replaced by the slug |
| Bot.MediaFileName | src/index.ts:366 | `.<ext>` is appended exactly when an extension exists and the name does not already end with it, ignoring case |
| Bot.MediaFileNameEndsWithExtension | src/index.ts:366 | with an extension the file name ends with it up to case, and naming again changes nothing |
| Bot.MediaPath | src/index.ts:358-372 | a saved media path is never empty |
| Bot.StoredLog | src/index.ts:314-321 | a missing file, one that does not parse, or one without a `meals` array is read as `{ meals: [] }`; an intact log is kept as it is |
| Bot.WithMeal | src/index.ts:322 | the new entry is appended last, earlier entries and the other keys are kept |
| Bot.MealLogStore.AppendMealLog | src/index.ts:308-327 | only the chat's own log file changes, to the stored log with the entry appended |
| Bot.AppendExtendsLog | src/index.ts:308-327 | with a JSON codec that round-trips, the chat's meals after appending are the meals before plus the entry, and every other log reads as before |
| Bot.InitialPayloadShape | src/index.ts:246-250 | each start-up payload is the FitBOT prefix, `. Test message `, its ordinal and `.` |
| Bot.InitialPayloadsDistinct | src/index.ts:246-250 | payloads with different ordinals differ |
| Bot.InitialSends | src/index.ts:241-251 | an empty jid or a count of zero or less sends nothing; otherwise exactly `count` messages to the jid, numbered 1 to `count` in order |
| Bot.SendInitialMessages | src/index.ts:241-260 | the loop attempts exactly those sends, and a failed send does not stop the later ones |
| Bot.SendEach | src/index.ts:243-259 | every send in the list is attempted in order, and the delivered ones are exactly those that succeed, in order |
| Bot.SliceEnd | src/index.ts:227 | `slice(0, limit)` keeps the first `limit` items, counting a negative limit from the end |
| Bot.TopChats | src/index.ts:224-227 | every listed chat is one of the chats and has a serialised id |
| Bot.TopChatsSpec | src/index.ts:224-227 | the list holds min(limit, identified chats) chats, newest first; no chat left out is newer than a listed one; no chat is listed more often than the input holds it |
| Bot.TopChatsIsPrefix | src/index.ts:224-227 | the listing is the first `limit` of the identified chats sorted newest first |
| Bot.TopChatsLeftOutOlder | src/index.ts:226-227 | an identified chat that the slice cut off is no newer than any listed chat |
| Bot.TopChatsFromFiltered | src/index.ts:224-227 | the listing is a sub-multiset of the identified chats |
| Bot.ChatLabel | src/index.ts:232 | a chat is labelled by its name, else its user, else its JID, which is never empty |
| Bot.ChatLineShape | src/index.ts:234 | a line starts with its 1-based number and the chat kind, and ends with the JID in parentheses |
| Bot.TopChatsReport | src/index.ts:216-235 | no chats gives the "No chats available yet" line; otherwise the header naming how many chats are listed, then one numbered line per listed chat in order |
| Dashboard.Overlay | ui/mobile/app/index.tsx:246-253 | the updated entry has the new value at the changed key, every other setting keeps the stored value or else the default, and it has no keys beyond the defaults, the stored ones and the changed one |
| Dashboard.OverlaySpec | ui/mobile/app/index.tsx:241-255 | overlaying a setting of the right kind keeps a well-typed entry well typed |
| Dashboard.SelectContent | ui/mobile/app/index.tsx:844-849 | billing first, then support, then the selected client's detail, and otherwise the client list |
| Dashboard.ContentWidth | ui/mobile/app/index.tsx:260 | the content width is never below 280, and above that it is the window minus the 260-wide sidebar (when wide, ui/mobile/components/sidebar.tsx:7) and the padding |
| Dashboard.Columns | ui/mobile/app/index.tsx:261 | 3 columns from 960, 2 from 720 up to 960, and 1 below 720 |
| Dashboard.CardWidth | ui/mobile/app/index.tsx:262-266 | a card is at least 260 wide; above 260 it is the widest card for which a row with its gaps fits; and it is above 260 whenever a row of 261-wide cards fits |
| Dashboard.RowFits | ui/mobile/app/index.tsx:260-266 | at every window width a full row of cards with its gaps fits in the content area |
| Dashboard.MarginUnlessLastInRow | ui/mobile/app/index.tsx:368 | a card has a right margin exactly when it is not the last of its row |
| Dashboard.ScrollPaddingBottom | ui/mobile/app/index.tsx:273 | the bottom padding is 120 exactly when the pinned tab bar shows (a client selected on a narrow screen), and 32 otherwise |
| Dashboard.TabsBarOnlyOverDetail | ui/mobile/app/index.tsx:844-870 | in a consistent state the pinned tab bar shows only over a client's detail page |
| Dashboard.DashboardState.constructor | ui/mobile/app/index.tsx:232-235 | the screen starts on the client list, with no selection, the intake tab and no stored configurations |
| Dashboard.DashboardState.CurrentConfig | ui/mobile/app/index.tsx:237-239 | the shown configuration is the selected client's stored one, and the defaults when no client is selected or nothing is stored |
| Dashboard.DashboardState.UpdateConfig | ui/mobile/app/index.tsx:241-255 | with no selection nothing changes; otherwise only the selected client's entry changes, to the overlay, and the shown configuration has the new value |
| Dashboard.DashboardState.UpdateToggle | ui/mobile/app/index.tsx:256-258 | a switch update is a configuration update with a boolean value |
| Dashboard.DashboardState.HandleViewChange | ui/mobile/app/index.tsx:268-271 | changing the view sets it and clears the selection, so no detail page is shown |
| Dashboard.DashboardState.SelectClient | ui/mobile/app/index.tsx:365 | tapping a card on the list selects that client and shows its detail |
| Dashboard.DashboardState.ClearSelection | ui/mobile/app/index.tsx:381 | the back arrow clears the selection and nothing else |
| Dashboard.DashboardState.SetActiveTab | ui/mobile/app/index.tsx:405 | choosing a tab changes only the active tab |

## Left out

- WhatsApp client construction, event registration, Chrome and Puppeteer probing, start-up orchestration and signal handlers (src/index.ts outside lines 144-387): these are transport and process plumbing.
- Console logging and warnings: they have no effect on the modelled state.
- The HTTP exchange, file reads and writes, directory creation, `mime.lookup`, `mime.extension`, `JSON.parse`, `JSON.stringify`, the clock and ISO-time rendering: these are parameters. Sends, reactions and file writes are modelled as effects that always succeed, except for the start-up sends, whose per-send outcome is a parameter.
- Concurrency and the interleaving of asynchronous handlers.
- `Text.ToLower`: only ASCII letters are case-folded, so that slice positions agree with the original text. Full Unicode case mapping is not modelled.
- Strings are sequences of characters with no UTF-16 surrogate pairs, so lengths (such as the 9000-character transcript limit) count characters.
- `PlateCalorieEstimator.ParseFloat` reads decimals exactly, as reals. IEEE rounding, exponents, `Infinity` and `NaN` are not modelled, and a JSON number is any real.
- `Json.NumberText`: a non-integer number is written with its exact decimal digits, cut off after 20 digits past the point. JavaScript writes the shortest digits that read back to the same double, and uses exponent form from 1e21 upwards and below 1e-6. Integers are written as JavaScript writes them.
- `OpenRouter.IsEnabled` is the truthiness of the key and carries no contract of its own. `OpenRouter.EnabledAuthorization` states what it means for the headers.
- `Sorting.SortBy`: a stable insertion sort stands for `Array.prototype.sort`. The model proves its order, its membership and its multiplicities, but not which arrangement it picks among equal keys.
- `Text.ReplaceFirst` models `String.replace` with a string pattern as a first-occurrence replacement. The `$` substitution patterns in a replacement string are not modelled.
- `ChatSummary.SummarizeRecentChat`: `maxMessages` only limits the fetch, so the fetched history is a parameter. The lookup of the chat by id is part of that fetch's outcome.
- `ScienceBrief.GenerateScienceBrief` uses this file's own short science system prompt, as the code does. No lemma separates it from the longer science prompt in `src/modulePrompt.ts`.
- `QnaTemplate.QnaPreferenceIgnored` holds only for question and context texts without `{`. `QnaTemplate.QnaPreferenceReachesQuestion` shows that the preference can reach the prompt when the question itself is `{{ASK_PREF}}`.
- `Bot.MediaPath`: the downloads directory is not part of the path. Only the file name is modelled.
- `Bot.HandleCalories` and `ChatSummary.SummarizeRecentChat` use the corrected `PlateCalorieEstimator.EstimatePlateCalories` and the corrected `ChatSummary.BuildSummaryPrompt` (see Findings).
- Dashboard.ContentWidth, `Dashboard.CardWidth` and `Dashboard.RowFits` take the window width as a whole number and divide with floor division. The app's window width can be fractional: its content width is then fractional too, and only the card width is rounded down with `Math.floor`.
- Dashboard rendering (styles, icons, the billing and support pages, `MOCK_CLIENTS`) and the `nudgeFrequency` and `trackingPhilosophy` string unions: the dashboard model keeps the state, the layout numbers and which page is shown. Those two settings are text values.

## Findings

| source | as written | input that shows it | evidently intended | confidence | as-written member | corrected member |
|---|---|---|---|---|---|---|
| src/plateCalorieEstimator.ts:110-111 | the resolved image is passed as `imageUrl`, which `describeImage` never reads, and no `base64Data` or `mimeType` is passed, so `describeImage` always fails with "Image data and mimeType are required" and the parser is never reached | any photo, e.g. base64Data `AAAA` with mimeType `image/png` | the resolved image reaches the vision request and the reply is parsed | not executed; the failure follows from src/openrouter.ts:94-106 | PlateCalorieEstimator.EstimatePlateCaloriesAsWritten | PlateCalorieEstimator.CorrectedSendsResolvedImage |
| src/chatSummary.ts:103-106 | the prompt replaces `{{SUMMARY_PREF}}` and `{{CONTEXT_BLOCK}}`, neither of which the summary template contains, so the transcript never reaches the model and `{{TRANSCRIPT}}` stays in the prompt | any two transcripts, e.g. `[t] Me: hi` and `""`, give the same prompt | the transcript replaces `{{TRANSCRIPT}}` | not executed | ChatSummary.BuildSummaryPromptAsWritten | ChatSummary.PromptCarriesTranscript |
