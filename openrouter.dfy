/**
 * The OpenRouter chat-completion client: configuration defaults, the enabled
 * check, request headers, the payloads of text and image requests, and the
 * handling of the provider's reply. The HTTP round trip itself is the
 * `Provider` parameter: it maps the request headers and the payload to a
 * status and a body.
 */
module OpenRouter {
  import opened Wrappers
  import opened Text
  import opened Json
  import opened Runtime

  const DefaultTextModel: string := "allenai/olmo-3-32b-think"
  const DefaultSystemPrompt: string := "You are a helpful WhatsApp assistant."
  const DefaultImageInstruction: string :=
    "Describe the contents of this WhatsApp image in one or two concise sentences."
  const DefaultImageMime: string := "image/jpeg"

  const MissingKeyError: string := "OpenRouter API key is missing."
  const EmptyResponseError: string := "OpenRouter returned an empty response."
  const NoTextModelError: string := "OpenRouter text model is not configured."
  const NoVisionModelError: string := "OpenRouter vision model is not configured."
  const NoImageError: string := "Image data and mimeType are required to describe an image."
  /** Raised by the feature modules, not by the client, when it is disabled. */
  const DisabledClientError: string := "OpenRouter client is disabled."

  /** The constructor's options; every field may be left `undefined`. */
  datatype Options = Options(
    apiKey: Option<string>,
    textModel: Option<string>,
    visionModel: Option<string>,
    referer: Option<string>,
    appTitle: Option<string>)

  /** A constructed client. Its fields are read-only after construction. */
  datatype OpenRouterClient = OpenRouterClient(
    apiKey: Option<string>,
    textModel: string,
    visionModel: string,
    referer: Option<string>,
    appTitle: Option<string>)

  /** A string option that is present and non-empty (a truthy string). */
  predicate Present(s: Option<string>) {
    s.Some? && s.value != ""
  }

  /** The constructor: `??` replaces only an absent model, so an explicitly
      empty model name survives, and the vision model falls back to the
      resolved text model. */
  function NewClient(options: Options): (c: OpenRouterClient)
    ensures options.textModel.None? ==> c.textModel == DefaultTextModel
    ensures options.textModel.Some? ==> c.textModel == options.textModel.value
    ensures options.visionModel.None? ==> c.visionModel == c.textModel
    ensures options.visionModel.Some? ==> c.visionModel == options.visionModel.value
    ensures c.apiKey == options.apiKey && c.referer == options.referer && c.appTitle == options.appTitle
  {
    var text := options.textModel.GetOr(DefaultTextModel);
    OpenRouterClient(options.apiKey, text, options.visionModel.GetOr(text), options.referer, options.appTitle)
  }

  /** The text model is empty only when the caller configured it empty. */
  lemma TextModelEmptyIff(options: Options)
    ensures NewClient(options).textModel == "" <==> options.textModel == Some("")
  {
  }

  /** `isEnabled`: `Boolean(apiKey)`. */
  predicate IsEnabled(c: OpenRouterClient) {
    Present(c.apiKey)
  }

  /** An enabled client authorises its requests with its own non-empty key;
      a disabled one would send `Bearer ` followed by nothing or by
      `undefined`, and is stopped before any request. */
  lemma EnabledAuthorization(c: OpenRouterClient)
    ensures IsEnabled(c) <==> c.apiKey.Some? && c.apiKey.value != ""
    ensures IsEnabled(c) ==> Headers(c)["Authorization"] == "Bearer " + c.apiKey.value
    ensures !IsEnabled(c) ==> Headers(c)["Authorization"] in {"Bearer ", "Bearer undefined"}
  {
    if c.apiKey == Some("") {
      assert "Bearer " + "" == "Bearer ";
    } else if c.apiKey.None? {
      assert "Bearer " + "undefined" == "Bearer undefined";
    }
  }

  // ---------------------------------------------------------------------------
  // Messages and payloads
  // ---------------------------------------------------------------------------

  datatype Role = System | User | Assistant

  datatype ContentPart = InputText(text: string) | InputImage(url: string)

  /** A message body: a plain string or a list of parts. */
  datatype Content = Plain(s: string) | Parts(parts: seq<ContentPart>)

  datatype ChatMessage = ChatMessage(role: Role, content: Content)

  /** The JSON body of a chat-completion request; `None` fields are omitted. */
  datatype Payload = Payload(
    model: string,
    messages: seq<ChatMessage>,
    temperature: Option<real>,
    maxTokens: Option<int>)

  /** The text request: the system prompt, then the user prompt. */
  function TextPayload(c: OpenRouterClient, prompt: string, systemPrompt: string): (p: Payload)
    ensures p.model == c.textModel && p.temperature == Some(0.7) && p.maxTokens.None?
    ensures |p.messages| == 2
    ensures p.messages[0] == ChatMessage(System, Plain(systemPrompt))
    ensures p.messages[1] == ChatMessage(User, Plain(prompt))
  {
    Payload(c.textModel, [ChatMessage(System, Plain(systemPrompt)), ChatMessage(User, Plain(prompt))], Some(0.7), None)
  }

  /** The parameters of `describeImage`; `imageUrl` is not among them. */
  datatype DescribeParams = DescribeParams(
    base64Data: Option<string>,
    mimeType: Option<string>,
    imagePath: Option<string>,
    instruction: Option<string>,
    system: Option<string>,
    temperature: Option<real>,
    maxTokens: Option<int>)

  /** The image `describeImage` sends: a readable `imagePath` replaces any
      `base64Data`, and its MIME type comes from the extension lookup, else
      from the given `mimeType`, else `image/jpeg`. Both parts must end up
      present. */
  function ImageSource(params: DescribeParams, host: Host): (r: Result<(string, string)>)
    ensures Present(params.imagePath) && params.imagePath.value !in host.files ==> r.Err?
    ensures !Present(params.imagePath) ==>
      (r.Ok? <==> Present(params.base64Data) && Present(params.mimeType))
    ensures !Present(params.imagePath) && r.Ok? ==> r.value == (params.base64Data.value, params.mimeType.value)
    ensures Present(params.imagePath) && params.imagePath.value in host.files ==>
      var path := params.imagePath.value;
      var mime := match host.mimeLookup(path)
        case Some(m) => m
        case None => params.mimeType.GetOr(DefaultImageMime);
      (r.Ok? <==> host.files[path] != "" && mime != "")
      && (r.Ok? ==> r.value == (host.files[path], mime))
    ensures r.Err? && !(Present(params.imagePath) && params.imagePath.value !in host.files) ==>
      r.error == NoImageError
  {
    if Present(params.imagePath) then
      match ReadFileBase64(host, params.imagePath.value)
      case Err(e) => Err(e)
      case Ok(b) =>
        var mime := match host.mimeLookup(params.imagePath.value)
          case Some(m) => m
          case None => params.mimeType.GetOr(DefaultImageMime);
        if b == "" || mime == "" then Err(NoImageError) else Ok((b, mime))
    else if !Present(params.base64Data) || !Present(params.mimeType) then Err(NoImageError)
    else Ok((params.base64Data.value, params.mimeType.value))
  }

  /** The messages of an image request: the system prompt only when it is a
      non-empty string, then the user turn with the instruction and the image
      as `data:<mime>;base64,<data>` (the data is not checked for an existing
      `data:` prefix). */
  function ImageMessages(params: DescribeParams, base64Data: string, mimeType: string): (m: seq<ChatMessage>)
    ensures |m| == (if Present(params.system) then 2 else 1)
    ensures Present(params.system) ==> m[0] == ChatMessage(System, Plain(params.system.value))
    ensures m[|m| - 1] == ChatMessage(User, Parts([
      InputText(params.instruction.GetOr(DefaultImageInstruction)),
      InputImage("data:" + mimeType + ";base64," + base64Data)]))
  {
    (if Present(params.system) then [ChatMessage(System, Plain(params.system.value))] else [])
    + [ChatMessage(User, Parts([
        InputText(params.instruction.GetOr(DefaultImageInstruction)),
        InputImage("data:" + mimeType + ";base64," + base64Data)]))]
  }

  /** The payload `describeImage` sends, or the error it throws first. */
  function ImagePayload(c: OpenRouterClient, params: DescribeParams, host: Host): (r: Result<Payload>)
    ensures c.visionModel == "" ==> r == Err(NoVisionModelError)
    ensures c.visionModel != "" && ImageSource(params, host).Err? ==> r.Err? && r.error == ImageSource(params, host).error
    ensures r.Ok? ==> (r.value.model == c.visionModel
      && r.value.temperature == Some(params.temperature.GetOr(0.2))
      && r.value.maxTokens == Some(params.maxTokens.GetOr(300)))
  {
    if c.visionModel == "" then Err(NoVisionModelError)
    else
      match ImageSource(params, host)
      case Err(e) => Err(e)
      case Ok(src) =>
        Ok(Payload(c.visionModel, ImageMessages(params, src.0, src.1),
                   Some(params.temperature.GetOr(0.2)), Some(params.maxTokens.GetOr(300))))
  }

  /** With a vision model and a resolved image, the payload is the vision
      model, the messages carrying that image, and the defaulted options. */
  lemma ImagePayloadBuilt(c: OpenRouterClient, params: DescribeParams, host: Host)
    requires c.visionModel != "" && ImageSource(params, host).Ok?
    ensures ImagePayload(c, params, host)
      == Ok(Payload(c.visionModel, ImageMessages(params, ImageSource(params, host).value.0, ImageSource(params, host).value.1),
                    Some(params.temperature.GetOr(0.2)), Some(params.maxTokens.GetOr(300))))
  {
  }

  /** `describeImage` as the source writes it, statement by statement: the
      locals `base64Data` and `mimeType` are reassigned when a path is given,
      and the messages are pushed one at a time. */
  method BuildImagePayload(c: OpenRouterClient, params: DescribeParams, host: Host) returns (r: Result<Payload>)
    ensures r == ImagePayload(c, params, host)
  {
    if c.visionModel == "" {
      return Err(NoVisionModelError);
    }
    var base64Data, mimeType := params.base64Data, params.mimeType;
    if Present(params.imagePath) {
      var read := ReadFileBase64(host, params.imagePath.value);
      if read.Err? {
        return Err(read.error);
      }
      base64Data := Some(read.value);
      var lookedUp := host.mimeLookup(params.imagePath.value);
      mimeType := if lookedUp.Some? then lookedUp else Some(mimeType.GetOr(DefaultImageMime));
    }
    if !Present(base64Data) || !Present(mimeType) {
      return Err(NoImageError);
    }
    var imageUrl := "data:" + mimeType.value + ";base64," + base64Data.value;
    var messages: seq<ChatMessage> := [];
    if Present(params.system) {
      messages := messages + [ChatMessage(System, Plain(params.system.value))];
    }
    messages := messages + [ChatMessage(User, Parts([
      InputText(params.instruction.GetOr(DefaultImageInstruction)),
      InputImage(imageUrl)]))];
    assert ImageSource(params, host) == Ok((base64Data.value, mimeType.value));
    assert messages == ImageMessages(params, base64Data.value, mimeType.value);
    r := Ok(Payload(c.visionModel, messages,
                    Some(params.temperature.GetOr(0.2)), Some(params.maxTokens.GetOr(300))));
  }

  // ---------------------------------------------------------------------------
  // The provider's reply
  // ---------------------------------------------------------------------------

  /** What the HTTP round trip yields: a status and the raw body, or a
      network failure. */
  datatype HttpResponse = HttpResponse(status: int, body: string) | NetworkFailure(reason: string)

  /** The HTTP round trip: the headers `buildHeaders` produces and the
      payload go in, the reply comes out. */
  type Provider = (map<string, string>, Payload) -> HttpResponse

  /** `x?.[0]`: the first element of an array or the first character of a
      string; `undefined` otherwise. */
  function FirstItem(v: Option<JsonValue>): Option<JsonValue> {
    match v
    case Some(JArray(items)) => if items == [] then None else Some(items[0])
    case Some(JString(s)) => if s == "" then None else Some(JString([s[0]]))
    case Some(JObject(f)) => if "0" in f then Some(f["0"]) else None
    case _ => None
  }

  /** `data.choices?.[0]?.message?.content`; reading `choices` of `null`
      throws. */
  function ChoiceContent(data: JsonValue): (r: Result<Option<JsonValue>>)
    ensures r.Err? <==> data.JNull?
    ensures !data.JObject? ==> r.Ok? ==> r.value.None?
    ensures (data.JObject? && "choices" in data.fields && data.fields["choices"].JArray?
             && data.fields["choices"].items != [] && data.fields["choices"].items[0].JObject?
             && "message" in data.fields["choices"].items[0].fields
             && data.fields["choices"].items[0].fields["message"].JObject?) ==>
        var g := data.fields["choices"].items[0].fields["message"].fields;
        r == Ok(if "content" in g then Some(g["content"]) else None)
  {
    if data.JNull? then Err("TypeError: Cannot read properties of null (reading 'choices')")
    else Ok(Member(Member(FirstItem(Member(Some(data), "choices")), "message"), "content"))
  }

  /** The value `map` gives one element of an array content: a string
      element itself, the `text` of an object element that has that key
      (`''` in place of `null`), and `''` for every other element. The value
      is kept whatever its type: `text` is not checked to be a string. */
  function PieceValue(item: JsonValue): JsonValue {
    match item
    case JString(_) => item
    case JObject(f) => if "text" in f && !f["text"].JNull? then f["text"] else JString("")
    case _ => JString("")
  }

  function Pieces(items: seq<JsonValue>): (r: seq<JsonValue>)
    ensures |r| == |items|
    ensures forall i :: 0 <= i < |items| ==> r[i] == PieceValue(items[i])
  {
    if items == [] then [] else [PieceValue(items[0])] + Pieces(items[1..])
  }

  /** `filter(Boolean)` followed by the string conversion `join` applies to
      each element: the truthy values, in order, each as `String(v)`. */
  function KeptTexts(vals: seq<JsonValue>): (r: seq<string>)
    ensures |r| <= |vals|
  {
    if vals == [] then []
    else (if Truthy(vals[0]) then [JsString(vals[0])] else []) + KeptTexts(vals[1..])
  }

  /** `map(...).filter(Boolean).join('\n')` over an array content. */
  function ArrayText(items: seq<JsonValue>): string {
    Join(KeptTexts(Pieces(items)), "\n")
  }

  /** `normalizeContent`: flattens the reply content into one trimmed string.
      A falsy value gives `''`, a string its trim, an array its truthy pieces
      converted to text, joined by newlines and trimmed, an object its trimmed
      `text`. An object whose `text` is neither a string nor `null` makes
      `.trim()` throw. */
  function NormalizeContent(content: Option<JsonValue>): (r: Result<string>)
    ensures r.Ok? ==> TrimEdges(r.value)
    ensures !TruthyOpt(content) ==> r == Ok("")
    ensures content.Some? && content.value.JString? ==> r == Ok(Trim(content.value.s))
    ensures content.Some? && content.value.JArray? ==> r == Ok(Trim(ArrayText(content.value.items)))
    ensures (content.Some? && content.value.JObject? && "text" in content.value.fields
             && content.value.fields["text"].JString?) ==> r == Ok(Trim(content.value.fields["text"].s))
    ensures (TruthyOpt(content) && !content.value.JString? && !content.value.JArray?
             && !(content.value.JObject? && "text" in content.value.fields && !content.value.fields["text"].JNull?)) ==> r == Ok("")
    ensures r.Err? <==> (TruthyOpt(content) && content.value.JObject? && "text" in content.value.fields
      && !content.value.fields["text"].JString? && !content.value.fields["text"].JNull?)
  {
    if !TruthyOpt(content) then Ok("")
    else match content.value
      case JString(s) => TrimEdgesHold(s); Ok(Trim(s))
      case JArray(items) => TrimEdgesHold(ArrayText(items)); Ok(Trim(ArrayText(items)))
      case JObject(f) =>
        if "text" !in f then Ok("")
        else (match f["text"]
          case JString(s) => TrimEdgesHold(s); Ok(Trim(s))
          case JNull => Ok("")
          case _ => Err("TypeError: maybeText?.trim is not a function"))
      case _ => Ok("")
  }

  lemma PiecesConcat(a: seq<JsonValue>, b: seq<JsonValue>)
    ensures Pieces(a + b) == Pieces(a) + Pieces(b)
  {
  }

  lemma PiecesSplice(a: seq<JsonValue>, x: JsonValue, b: seq<JsonValue>)
    ensures Pieces(a + [x] + b) == Pieces(a) + [PieceValue(x)] + Pieces(b)
  {
  }

  lemma {:induction false} KeptTextsConcat(a: seq<JsonValue>, b: seq<JsonValue>)
    ensures KeptTexts(a + b) == KeptTexts(a) + KeptTexts(b)
  {
    if a != [] {
      assert (a + b)[0] == a[0];
      assert (a + b)[1..] == a[1..] + b;
      KeptTextsConcat(a[1..], b);
    } else {
      assert a + b == b;
    }
  }

  /** The texts an array with one more element in it keeps. */
  lemma KeptTextsSplice(a: seq<JsonValue>, x: JsonValue, b: seq<JsonValue>)
    ensures KeptTexts(Pieces(a + [x] + b)) == KeptTexts(Pieces(a))
      + (if Truthy(PieceValue(x)) then [JsString(PieceValue(x))] else []) + KeptTexts(Pieces(b))
  {
    PiecesSplice(a, x, b);
    KeptTextsConcat(Pieces(a) + [PieceValue(x)], Pieces(b));
    KeptTextsConcat(Pieces(a), [PieceValue(x)]);
    assert [PieceValue(x)][1..] == [];
  }

  /** An array element that maps to a falsy value (a number, a boolean,
      `null` or a nested array element, an object without `text` or with a
      `null`, `''`, `0` or `false` one, an empty string) is filtered out. */
  lemma FalsyPiecesDropped(a: seq<JsonValue>, x: JsonValue, b: seq<JsonValue>)
    requires !Truthy(PieceValue(x))
    ensures ArrayText(a + [x] + b) == ArrayText(a + b)
  {
    KeptTextsSplice(a, x, b);
    PiecesConcat(a, b);
    KeptTextsConcat(Pieces(a), Pieces(b));
    assert KeptTexts(Pieces(a + [x] + b)) == KeptTexts(Pieces(a)) + KeptTexts(Pieces(b));
  }

  /** An element that maps to a truthy value is kept, converted to text, in
      its place among the others, whatever the type of the value. */
  lemma TruthyPieceKept(a: seq<JsonValue>, x: JsonValue, b: seq<JsonValue>)
    requires Truthy(PieceValue(x))
    ensures ArrayText(a + [x] + b)
      == Join(KeptTexts(Pieces(a)) + [JsString(PieceValue(x))] + KeptTexts(Pieces(b)), "\n")
  {
    KeptTextsSplice(a, x, b);
  }

  /** Inserting an element that maps to a falsy value anywhere in an array
      content does not change what it normalises to. */
  lemma NormalizeIgnoresFalsyParts(a: seq<JsonValue>, x: JsonValue, b: seq<JsonValue>)
    requires !Truthy(PieceValue(x))
    ensures NormalizeContent(Some(JArray(a + [x] + b))) == NormalizeContent(Some(JArray(a + b)))
  {
    FalsyPiecesDropped(a, x, b);
  }

  /** A numeric `text` is kept and written as a number. */
  lemma NumericTextKept()
    ensures NormalizeContent(Some(JArray([JObject(map["text" := JNumber(5.0)])]))) == Ok("5")
  {
    var items := [JObject(map["text" := JNumber(5.0)])];
    NumberTextOfInt(5);
    assert Pieces(items) == [JNumber(5.0)];
    assert KeptTexts(Pieces(items)) == ["5"];
    TrimOfTrimmed("5");
  }

  /** An empty array as `text` is truthy, so it is kept and joined as an
      empty line. */
  lemma EmptyArrayTextKept()
    ensures NormalizeContent(Some(JArray([JString("a"), JObject(map["text" := JArray([])]), JString("b")])))
      == Ok("a\n\nb")
  {
    EmptyArrayExampleText();
    EmptyArrayExampleTrimmed();
  }

  lemma EmptyArrayExampleTrimmed()
    ensures Trim("a\n\nb") == "a\n\nb"
  {
    TrimOfTrimmed("a\n\nb");
  }

  lemma EmptyArrayExampleText()
    ensures ArrayText([JString("a"), JObject(map["text" := JArray([])]), JString("b")]) == "a\n\nb"
  {
    var items := [JString("a"), JObject(map["text" := JArray([])]), JString("b")];
    var vals := [JString("a"), JArray([]), JString("b")];
    assert Pieces(items) == vals;
    EmptyArrayExampleKept(vals);
    assert Join(["", "b"], "\n") == "\nb";
    assert Join(["a", "", "b"], "\n") == "a\n\nb";
  }

  lemma EmptyArrayExampleKept(vals: seq<JsonValue>)
    requires vals == [JString("a"), JArray([]), JString("b")]
    ensures KeptTexts(vals) == ["a", "", "b"]
  {
    assert JsString(JArray([])) == "";
    assert KeptTexts(vals[2..]) == ["b"];
    assert KeptTexts(vals[1..]) == [""] + KeptTexts(vals[2..]);
  }

  /** An array of strings is joined with newlines after the empty strings are
      dropped, and the whole is trimmed. */
  lemma NormalizeStrings(parts: seq<string>)
    requires parts != []
    ensures NormalizeContent(Some(JArray(StringItems(parts)))) == Ok(Trim(Join(NonEmpty(parts), "\n")))
  {
    StringTexts(parts);
  }

  /** The array content made of the given strings. */
  function StringItems(parts: seq<string>): (r: seq<JsonValue>)
    ensures |r| == |parts| && forall i :: 0 <= i < |parts| ==> r[i] == JString(parts[i])
  {
    seq(|parts|, i requires 0 <= i < |parts| => JString(parts[i]))
  }

  lemma {:induction false} StringTexts(parts: seq<string>)
    ensures KeptTexts(Pieces(StringItems(parts))) == NonEmpty(parts)
  {
    if parts != [] {
      var items := StringItems(parts);
      assert items == [JString(parts[0])] + StringItems(parts[1..]);
      PiecesConcat([JString(parts[0])], StringItems(parts[1..]));
      KeptTextsConcat([JString(parts[0])], Pieces(StringItems(parts[1..])));
      StringTexts(parts[1..]);
    }
  }

  /** `requestCompletion` after the API-key check: one call to the provider,
      then the status check, the JSON body and the normalised content. */
  function RequestCompletion(c: OpenRouterClient, payload: Payload, provider: Provider, parseJson: string -> Option<JsonValue>): (r: Result<string>)
    ensures !IsEnabled(c) ==> r == Err(MissingKeyError)
    ensures IsEnabled(c) && provider(Headers(c), payload).HttpResponse? && !(200 <= provider(Headers(c), payload).status <= 299) ==>
      r == Err("OpenRouter request failed (" + IntToString(provider(Headers(c), payload).status) + "): " + provider(Headers(c), payload).body)
    ensures r.Ok? ==> r.value != "" && TrimEdges(r.value)
    ensures r.Ok? ==> IsEnabled(c) && provider(Headers(c), payload).HttpResponse? && 200 <= provider(Headers(c), payload).status <= 299
  {
    if !IsEnabled(c) then Err(MissingKeyError)
    else match provider(Headers(c), payload)
      case NetworkFailure(reason) => Err(reason)
      case HttpResponse(status, body) =>
        if !(200 <= status <= 299) then
          Err("OpenRouter request failed (" + IntToString(status) + "): " + body)
        else match parseJson(body)
          case None => Err("SyntaxError: response body is not valid JSON")
          case Some(data) =>
            match ChoiceContent(data)
            case Err(e) => Err(e)
            case Ok(content) =>
              match NormalizeContent(content)
              case Err(e) => Err(e)
              case Ok(text) => if text == "" then Err(EmptyResponseError) else Ok(text)
  }

  /** A successful reply whose content normalises to the empty string is
      reported as an empty response. */
  lemma EmptyContentIsError(c: OpenRouterClient, payload: Payload, provider: Provider,
                            parseJson: string -> Option<JsonValue>, data: JsonValue)
    requires IsEnabled(c) && provider(Headers(c), payload).HttpResponse?
    requires 200 <= provider(Headers(c), payload).status <= 299
    requires parseJson(provider(Headers(c), payload).body) == Some(data)
    requires ChoiceContent(data).Ok? && NormalizeContent(ChoiceContent(data).value) == Ok("")
    ensures RequestCompletion(c, payload, provider, parseJson) == Err(EmptyResponseError)
  {
  }

  /** A successful reply gives exactly its normalised, non-empty content. */
  lemma CompletionIsContent(c: OpenRouterClient, payload: Payload, provider: Provider,
                            parseJson: string -> Option<JsonValue>, data: JsonValue, content: Option<JsonValue>, text: string)
    requires IsEnabled(c) && provider(Headers(c), payload).HttpResponse?
    requires 200 <= provider(Headers(c), payload).status <= 299
    requires parseJson(provider(Headers(c), payload).body) == Some(data)
    requires ChoiceContent(data) == Ok(content) && NormalizeContent(content) == Ok(text) && text != ""
    ensures RequestCompletion(c, payload, provider, parseJson) == Ok(text)
  {
  }

  /** A network failure of an enabled request is the error it carries. */
  lemma CompletionNetworkFailure(c: OpenRouterClient, payload: Payload, provider: Provider, parseJson: string -> Option<JsonValue>)
    requires IsEnabled(c) && provider(Headers(c), payload).NetworkFailure?
    ensures RequestCompletion(c, payload, provider, parseJson) == Err(provider(Headers(c), payload).reason)
  {
  }

  /** A 2xx body that is not JSON is an error. */
  lemma CompletionUnparsed(c: OpenRouterClient, payload: Payload, provider: Provider, parseJson: string -> Option<JsonValue>)
    requires IsEnabled(c) && provider(Headers(c), payload).HttpResponse?
    requires 200 <= provider(Headers(c), payload).status <= 299
    requires parseJson(provider(Headers(c), payload).body).None?
    ensures RequestCompletion(c, payload, provider, parseJson).Err?
  {
  }

  /** A 2xx body whose reply cannot be read (`null`) is the reading error. */
  lemma CompletionUnreadable(c: OpenRouterClient, payload: Payload, provider: Provider,
                             parseJson: string -> Option<JsonValue>, data: JsonValue)
    requires IsEnabled(c) && provider(Headers(c), payload).HttpResponse?
    requires 200 <= provider(Headers(c), payload).status <= 299
    requires parseJson(provider(Headers(c), payload).body) == Some(data) && ChoiceContent(data).Err?
    ensures RequestCompletion(c, payload, provider, parseJson) == Err(ChoiceContent(data).error)
  {
  }

  /** Content whose `text` cannot be trimmed is the trimming error. */
  lemma CompletionUntrimmable(c: OpenRouterClient, payload: Payload, provider: Provider,
                              parseJson: string -> Option<JsonValue>, data: JsonValue, content: Option<JsonValue>)
    requires IsEnabled(c) && provider(Headers(c), payload).HttpResponse?
    requires 200 <= provider(Headers(c), payload).status <= 299
    requires parseJson(provider(Headers(c), payload).body) == Some(data)
    requires ChoiceContent(data) == Ok(content) && NormalizeContent(content).Err?
    ensures RequestCompletion(c, payload, provider, parseJson) == Err(NormalizeContent(content).error)
  {
  }

  /** `generateText`. */
  function GenerateText(c: OpenRouterClient, prompt: string, systemPrompt: string,
                        provider: Provider, parseJson: string -> Option<JsonValue>): (r: Result<string>)
    ensures c.textModel == "" ==> r == Err(NoTextModelError)
    ensures c.textModel != "" ==> r == RequestCompletion(c, TextPayload(c, prompt, systemPrompt), provider, parseJson)
  {
    if c.textModel == "" then Err(NoTextModelError)
    else RequestCompletion(c, TextPayload(c, prompt, systemPrompt), provider, parseJson)
  }

  /** `describeImage`. */
  function DescribeImage(c: OpenRouterClient, params: DescribeParams, host: Host, provider: Provider): (r: Result<string>)
    ensures ImagePayload(c, params, host).Err? ==> r == Err(ImagePayload(c, params, host).error)
    ensures ImagePayload(c, params, host).Ok? ==>
      r == RequestCompletion(c, ImagePayload(c, params, host).value, provider, host.parseJson)
  {
    match ImagePayload(c, params, host)
    case Err(e) => Err(e)
    case Ok(p) => RequestCompletion(c, p, provider, host.parseJson)
  }

  /** Without an image path, base64 data or MIME type, `describeImage` throws
      before any request is made. */
  lemma DescribeImageNeedsImage(c: OpenRouterClient, params: DescribeParams, host: Host, provider: Provider)
    requires !Present(params.imagePath) && (!Present(params.base64Data) || !Present(params.mimeType))
    ensures DescribeImage(c, params, host, provider).Err?
    ensures c.visionModel != "" ==> DescribeImage(c, params, host, provider) == Err(NoImageError)
  {
  }

  // ---------------------------------------------------------------------------
  // Headers
  // ---------------------------------------------------------------------------

  /** The text a template literal gives for the key: `undefined` when absent. */
  function KeyText(key: Option<string>): string {
    match key
    case Some(k) => k
    case None => "undefined"
  }

  /** The headers of every request: the two fixed headers, then the
      attribution headers for the options that are non-empty strings. */
  function Headers(c: OpenRouterClient): (h: map<string, string>)
    ensures "Content-Type" in h && h["Content-Type"] == "application/json"
    ensures "Authorization" in h && h["Authorization"] == "Bearer " + KeyText(c.apiKey)
    ensures "HTTP-Referer" in h <==> Present(c.referer)
    ensures "HTTP-Referer" in h ==> h["HTTP-Referer"] == c.referer.value
    ensures "X-Title" in h <==> Present(c.appTitle)
    ensures "X-Title" in h ==> h["X-Title"] == c.appTitle.value
    ensures h.Keys <= {"Content-Type", "Authorization", "HTTP-Referer", "X-Title"}
  {
    map["Content-Type" := "application/json", "Authorization" := "Bearer " + KeyText(c.apiKey)]
      + (if Present(c.referer) then map["HTTP-Referer" := c.referer.value] else map[])
      + (if Present(c.appTitle) then map["X-Title" := c.appTitle.value] else map[])
  }

  /** `buildHeaders`: the record is filled in one header at a time. */
  method BuildHeaders(c: OpenRouterClient) returns (headers: map<string, string>)
    ensures headers == Headers(c)
  {
    headers := map["Content-Type" := "application/json", "Authorization" := "Bearer " + KeyText(c.apiKey)];
    if Present(c.referer) {
      headers := headers["HTTP-Referer" := c.referer.value];
    }
    if Present(c.appTitle) {
      headers := headers["X-Title" := c.appTitle.value];
    }
  }
}
