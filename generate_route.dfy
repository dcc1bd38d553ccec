/** The server endpoint that generates an image from a prompt: `POST` validates the prompt,
    tries the image models in a fixed order until one answers, takes the description and the
    inline image out of the first candidate, and answers with a data URL; errors thrown on the
    way are mapped to HTTP statuses by their message. `GET` is refused. The model SDK is an
    oracle: `gen(model)` is what calling that model gives. */
module GenerateRoute {
  import opened JsText

  const Models := ["gemini-2.5-flash-image-preview", "gemini-1.5-flash-image-preview", "gemini-pro-vision"]
  const MaxPromptLength := 500
  const DefaultMime := "image/png"

  const EmptyPromptError := "Prompt is required and must be a non-empty string"
  const LongPromptError := "Prompt must be 500 characters or less"
  const ConfigError := "Server configuration error"
  const NoCandidatesError := "No response generated from AI"
  const BadFormatError := "Invalid response format from AI"
  const NoImageError := "No image was generated"

  /** The `prompt` field of the request body. */
  datatype PromptField = Missing | NonString(truthy: bool) | Text(s: string)

  /** The request body: unreadable (reading or destructuring it threw), or parsed. */
  datatype RequestBody = Unreadable(e: Thrown) | Parsed(prompt: PromptField)

  datatype InlineData = InlineData(data: Option<string>, mimeType: Option<string>)
  datatype Part = Part(text: Option<string>, inlineData: Option<InlineData>)
  datatype Content = Content(parts: Option<seq<Part>>)
  datatype Candidate = Candidate(content: Option<Content>)
  datatype ModelResponse = ModelResponse(candidates: Option<seq<Candidate>>)
  datatype ModelOutcome = ModelThrew(e: Thrown) | ModelReturned(response: ModelResponse)

  datatype Body =
    | ErrorBody(error: string)
    | QuotaBody(error: string, details: string, help: string, link: string, retryAfter: string)
    | SuccessBody(imageUrl: string, description: string, prompt: string)

  datatype HttpResponse = HttpResponse(status: nat, body: Body)

  /** The two prompt checks, in order; `None` lets the request through. */
  function PromptRejection(f: PromptField): (r: Option<HttpResponse>)
    ensures r.None? <==> f.Text? && !AllSpace(f.s) && |f.s| <= MaxPromptLength
    ensures r.Some? ==> r.value.status == 400
    ensures r.Some? && f.Text? && !AllSpace(f.s) ==> r.value.body == ErrorBody(LongPromptError)
    ensures r.Some? && !(f.Text? && !AllSpace(f.s)) ==> r.value.body == ErrorBody(EmptyPromptError)
  {
    match f
    case Text(p) =>
      TrimEmptyIff(p);
      if Trim(p) == "" then Some(HttpResponse(400, ErrorBody(EmptyPromptError)))
      else if |p| > MaxPromptLength then Some(HttpResponse(400, ErrorBody(LongPromptError)))
      else None
    case _ => Some(HttpResponse(400, ErrorBody(EmptyPromptError)))
  }

  /** The position of the first model that answers, if any. */
  function FirstSuccess(models: seq<string>, gen: string -> ModelOutcome): (k: Option<nat>)
    ensures k.Some? ==> k.value < |models| && gen(models[k.value]).ModelReturned?
    ensures k.Some? ==> forall j :: 0 <= j < k.value ==> gen(models[j]).ModelThrew?
    ensures k.None? ==> forall j :: 0 <= j < |models| ==> gen(models[j]).ModelThrew?
  {
    if models == [] then None
    else if gen(models[0]).ModelReturned? then Some(0)
    else match FirstSuccess(models[1..], gen)
      case None => None
      case Some(k) => Some(k + 1)
  }

  /** What the model loop leaves behind: the response, the last error, the models called. */
  datatype Fallback = Fallback(response: Option<ModelResponse>, lastError: Option<Thrown>, tried: seq<string>)

  /** The loop's result: the models are called in list order up to and including the first
      that answers; when none answers, the error of the last one is kept. */
  function FallbackSpec(models: seq<string>, gen: string -> ModelOutcome): Fallback {
    match FirstSuccess(models, gen)
    case Some(k) =>
      Fallback(Some(gen(models[k]).response),
               if k > 0 then Some(gen(models[k - 1]).e) else None,
               models[..k + 1])
    case None =>
      Fallback(None, if |models| > 0 then Some(gen(models[|models| - 1]).e) else None, models)
  }

  /** The `for ... of models` loop with its `break` on the first answer. */
  method TryModels(models: seq<string>, gen: string -> ModelOutcome)
    returns (response: Option<ModelResponse>, lastError: Option<Thrown>, tried: seq<string>)
    ensures Fallback(response, lastError, tried) == FallbackSpec(models, gen)
  {
    response, lastError, tried := None, None, [];
    var i := 0;
    while i < |models|
      invariant 0 <= i <= |models|
      invariant response.None? && tried == models[..i]
      invariant forall j :: 0 <= j < i ==> gen(models[j]).ModelThrew?
      invariant lastError == if i > 0 then Some(gen(models[i - 1]).e) else None
    {
      tried := tried + [models[i]];
      match gen(models[i])
      case ModelReturned(r) =>
        response := Some(r);
        assert FirstSuccess(models, gen) == Some(i);
        return;
      case ModelThrew(e) =>
        lastError := Some(e);
      i := i + 1;
    }
    assert tried == models;
  }

  /** The state the parts loop carries. */
  datatype Extracted = Extracted(description: string, imageData: Option<string>, mimeType: string)

  /** A part that sets the image: no text, but inline data. */
  predicate IsInlinePart(p: Part) {
    !Truthy(p.text) && p.inlineData.Some?
  }

  /** One pass of the parts loop: text is appended to the description; otherwise inline data
      replaces the image data and the mime type (which defaults to `image/png`). */
  function ExtractStep(acc: Extracted, p: Part): Extracted {
    if Truthy(p.text) then acc.(description := acc.description + p.text.value)
    else if p.inlineData.Some? then
      acc.(imageData := p.inlineData.value.data,
           mimeType := OrElse(p.inlineData.value.mimeType, DefaultMime))
    else acc
  }

  function Extraction(parts: seq<Part>): Extracted {
    if parts == [] then Extracted("", None, DefaultMime)
    else ExtractStep(Extraction(parts[..|parts| - 1]), parts[|parts| - 1])
  }

  method ExtractParts(parts: seq<Part>) returns (description: string, imageData: Option<string>, mimeType: string)
    ensures Extracted(description, imageData, mimeType) == Extraction(parts)
  {
    description, imageData, mimeType := "", None, DefaultMime;
    for i := 0 to |parts|
      invariant Extracted(description, imageData, mimeType) == Extraction(parts[..i])
    {
      var part := parts[i];
      if Truthy(part.text) {
        description := description + part.text.value;
      } else if part.inlineData.Some? {
        imageData := part.inlineData.value.data;
        mimeType := OrElse(part.inlineData.value.mimeType, DefaultMime);
      }
      assert parts[..i + 1][..i] == parts[..i];
    }
    assert parts[..|parts|] == parts;
  }

  /** The text of the text parts, in order. */
  function TextOf(parts: seq<Part>): string {
    if parts == [] then ""
    else (if Truthy(parts[0].text) then parts[0].text.value else "") + TextOf(parts[1..])
  }

  lemma {:induction false} TextOfSnoc(parts: seq<Part>, p: Part)
    ensures TextOf(parts + [p]) == TextOf(parts) + (if Truthy(p.text) then p.text.value else "")
  {
    if parts != [] {
      assert (parts + [p])[1..] == parts[1..] + [p];
      TextOfSnoc(parts[1..], p);
    }
  }

  /** The description is the in-order concatenation of the text parts. */
  lemma {:induction false} DescriptionIsText(parts: seq<Part>)
    ensures Extraction(parts).description == TextOf(parts)
  {
    if parts != [] {
      var init := parts[..|parts| - 1];
      DescriptionIsText(init);
      TextOfSnoc(init, parts[|parts| - 1]);
      assert init + [parts[|parts| - 1]] == parts;
    }
  }

  /** The position of the last part that carries inline data and no text. */
  function LastInline(parts: seq<Part>): (k: Option<nat>)
    ensures k.Some? ==> k.value < |parts| && IsInlinePart(parts[k.value])
    ensures k.Some? ==> forall j :: k.value < j < |parts| ==> !IsInlinePart(parts[j])
    ensures k.None? ==> forall j :: 0 <= j < |parts| ==> !IsInlinePart(parts[j])
  {
    if parts == [] then None
    else if IsInlinePart(parts[|parts| - 1]) then Some(|parts| - 1)
    else LastInline(parts[..|parts| - 1])
  }

  /** The image data and mime type come from the last inline part (a later one overwrites an
      earlier one, even when its data is missing); with none, there is no image data and the
      mime type is `image/png`. A part with text never supplies image data. */
  lemma {:induction false} ImageFromLastInline(parts: seq<Part>)
    ensures LastInline(parts).None? ==>
      Extraction(parts).imageData.None? && Extraction(parts).mimeType == DefaultMime
    ensures LastInline(parts).Some? ==>
      var d := parts[LastInline(parts).value].inlineData.value;
      Extraction(parts).imageData == d.data && Extraction(parts).mimeType == OrElse(d.mimeType, DefaultMime)
  {
    if parts != [] {
      ImageFromLastInline(parts[..|parts| - 1]);
    }
  }

  const DataPrefix := "data:"
  const Base64Marker := ";base64,"

  /** `data:${mimeType};base64,${imageData}` */
  function DataUrl(mime: string, data: string): (url: string)
    ensures StartsWith(url, DataPrefix)
  {
    var url := DataPrefix + mime + Base64Marker + data;
    assert url[..|DataPrefix|] == DataPrefix;
    url
  }

  /** Reading a data URL back: the mime type up to the first `;`, then `;base64,`, then data. */
  function ParseDataUrl(url: string): Option<(string, string)> {
    if !StartsWith(url, DataPrefix) then None
    else
      var rest := url[|DataPrefix|..];
      match IndexOf(rest, ";")
      case None => None
      case Some(i) =>
        if StartsWith(rest[i..], Base64Marker) then Some((rest[..i], rest[i + |Base64Marker|..]))
        else None
  }

  /** The image URL keeps mime type and data apart: both are recovered from it whenever the
      mime type has no `;` in it (as no mime type the models return does). */
  lemma DataUrlRoundTrip(mime: string, data: string)
    requires ';' !in mime
    ensures ParseDataUrl(DataUrl(mime, data)) == Some((mime, data))
  {
    var url := DataUrl(mime, data);
    assert StartsWith(url, DataPrefix);
    var rest := url[|DataPrefix|..];
    assert rest == mime + Base64Marker + data;
    forall k | 0 <= k < |mime|
      ensures !StartsWith(rest[k..], ";")
    {
      assert rest[k..][0] == mime[k];
    }
    assert StartsWith(rest[|mime|..], ";");
    var i := IndexOf(rest, ";").value;
    assert rest[i..][..1] == rest[i..i + 1];
    assert i == |mime|;
    assert rest[|mime|..][..|Base64Marker|] == Base64Marker;
    assert rest[..i] == mime;
    assert rest[i + |Base64Marker|..] == data;
  }

  const QuotaError := "Gemini API Not Properly Configured"
  const QuotaDetails := "Your API key doesn't have access to image generation. Please enable billing and request quota increase for 'generativelanguage.googleapis.com' in Google Cloud Console."
  const QuotaHelp := "1. Go to Google Cloud Console → Billing → Enable Billing\n2. Go to APIs & Services → Quotas → Find 'Generative Language API'\n3. Request quota increase for image generation"
  const QuotaLink := "https://console.cloud.google.com/billing"
  const QuotaRetryAfter := "Not applicable - requires billing setup"

  /** The `catch` block: an `Error` whose message mentions `API_KEY`, `QUOTA` or `SAFETY` (in
      that order of priority) gets 401, 429 with remediation fields, or 400; anything else,
      including a thrown value that is not an `Error`, gets 500. */
  function ErrorResponse(e: Thrown): (r: HttpResponse)
    ensures r.status == 401 <==> e.ErrorObject? && Includes(e.message, "API_KEY")
    ensures r.status == 429 <==>
      e.ErrorObject? && !Includes(e.message, "API_KEY") && Includes(e.message, "QUOTA")
    ensures r.status == 400 <==>
      e.ErrorObject? && !Includes(e.message, "API_KEY") && !Includes(e.message, "QUOTA")
      && Includes(e.message, "SAFETY")
    ensures r.status == 500 <==>
      e.OtherValue? || !(Includes(e.message, "API_KEY") || Includes(e.message, "QUOTA") || Includes(e.message, "SAFETY"))
    ensures r.status in {400, 401, 429, 500}
    ensures r.status == 429 <==> r.body.QuotaBody?
    ensures r.body.QuotaBody? ==> r.body.details != "" && r.body.help != "" && r.body.link != ""
    ensures !r.body.SuccessBody? && r.body.error != ""
    ensures r.body.QuotaBody? ==> r.body.error == QuotaError
  {
    match e
    case ErrorObject(m) =>
      if Includes(m, "API_KEY") then HttpResponse(401, ErrorBody("Authentication error"))
      else if Includes(m, "QUOTA") then
        HttpResponse(429, QuotaBody(QuotaError, QuotaDetails, QuotaHelp, QuotaLink, QuotaRetryAfter))
      else if Includes(m, "SAFETY") then
        HttpResponse(400, ErrorBody("Content violates safety guidelines. Please try a different prompt."))
      else HttpResponse(500, ErrorBody("Failed to generate NFT. Please try again."))
    case OtherValue => HttpResponse(500, ErrorBody("Failed to generate NFT. Please try again."))
  }

  /** `throw lastError` with nothing recorded throws `undefined`, which is not an `Error`. */
  function ThrownOrUndefined(e: Option<Thrown>): Thrown {
    if e.Some? then e.value else OtherValue
  }

  /** The response has a first candidate. */
  predicate HasCandidate(resp: ModelResponse) {
    resp.candidates.Some? && |resp.candidates.value| > 0
  }

  /** The first candidate has content with a list of parts. */
  predicate WellFormed(resp: ModelResponse) {
    && HasCandidate(resp)
    && resp.candidates.value[0].content.Some?
    && resp.candidates.value[0].content.value.parts.Some?
  }

  /** What the parts loop makes of the first candidate's parts. */
  function FirstParts(resp: ModelResponse): Extracted
    requires WellFormed(resp)
  {
    Extraction(resp.candidates.value[0].content.value.parts.value)
  }

  /** What the handler makes of the first model response that arrived. */
  function Interpret(resp: ModelResponse, prompt: string): (r: HttpResponse)
    ensures r.status == 200 || r.status == 500
    ensures r.status == 500 ==> r.body.ErrorBody? && r.body.error != ""
    ensures r.status == 200 <==> WellFormed(resp) && Truthy(FirstParts(resp).imageData)
    ensures r.status == 200 ==>
      var ex := FirstParts(resp);
      r.body == SuccessBody(DataUrl(ex.mimeType, ex.imageData.value), Trim(ex.description), Trim(prompt))
    ensures resp.candidates.None? || |resp.candidates.value| == 0 ==>
      r == HttpResponse(500, ErrorBody(NoCandidatesError))
    ensures HasCandidate(resp) && !WellFormed(resp) ==> r == HttpResponse(500, ErrorBody(BadFormatError))
    ensures WellFormed(resp) && !Truthy(FirstParts(resp).imageData) ==>
      r == HttpResponse(500, ErrorBody(NoImageError))
  {
    if resp.candidates.None? || |resp.candidates.value| == 0 then
      HttpResponse(500, ErrorBody(NoCandidatesError))
    else
      var candidate := resp.candidates.value[0];
      if candidate.content.None? || candidate.content.value.parts.None? then
        HttpResponse(500, ErrorBody(BadFormatError))
      else
        var ex := Extraction(candidate.content.value.parts.value);
        if !Truthy(ex.imageData) then HttpResponse(500, ErrorBody(NoImageError))
        else HttpResponse(200, SuccessBody(DataUrl(ex.mimeType, ex.imageData.value), Trim(ex.description), Trim(prompt)))
  }

  /** A handled request: the response and the models called, in order. */
  datatype Handled = Handled(response: HttpResponse, tried: seq<string>)

  /** The whole `POST` handler. `apiKey` is the configured credential. */
  function Respond(body: RequestBody, apiKey: Option<string>, gen: string -> ModelOutcome): Handled {
    match body
    case Unreadable(e) => Handled(ErrorResponse(e), [])
    case Parsed(f) =>
      if PromptRejection(f).Some? then Handled(PromptRejection(f).value, [])
      else if !Truthy(apiKey) then Handled(HttpResponse(500, ErrorBody(ConfigError)), [])
      else
        var fb := FallbackSpec(Models, gen);
        match fb.response
        case None => Handled(ErrorResponse(ThrownOrUndefined(fb.lastError)), fb.tried)
        case Some(resp) => Handled(Interpret(resp, f.s), fb.tried)
  }

  /** Every answer is a success body with status 200, or an error body with a non-empty error
      and one of the error statuses. */
  lemma RespondBodies(body: RequestBody, apiKey: Option<string>, gen: string -> ModelOutcome)
    ensures var r := Respond(body, apiKey, gen).response;
      && r.status in {200, 400, 401, 429, 500}
      && (r.body.SuccessBody? <==> r.status == 200)
      && (!r.body.SuccessBody? ==> r.body.error != "")
      && (r.status == 429 <==> r.body.QuotaBody?)
      && (r.body.QuotaBody? ==> r.body.error == QuotaError)
  {
    var r := Respond(body, apiKey, gen).response;
    match body
    case Unreadable(e) =>
      assert r == ErrorResponse(e);
    case Parsed(f) =>
      if PromptRejection(f).Some? {
        assert r == PromptRejection(f).value;
      } else if !Truthy(apiKey) {
        assert r == HttpResponse(500, ErrorBody(ConfigError));
      } else {
        var fb := FallbackSpec(Models, gen);
        if fb.response.None? {
          assert r == ErrorResponse(ThrownOrUndefined(fb.lastError));
        } else {
          assert r == Interpret(fb.response.value, f.s);
        }
      }
  }

  method Post(body: RequestBody, apiKey: Option<string>, gen: string -> ModelOutcome)
    returns (response: HttpResponse, tried: seq<string>)
    ensures Handled(response, tried) == Respond(body, apiKey, gen)
  {
    tried := [];
    if body.Unreadable? {
      response := ErrorResponse(body.e);
      return;
    }
    var rejection := PromptRejection(body.prompt);
    if rejection.Some? {
      response := rejection.value;
      return;
    }
    var prompt := body.prompt.s;
    if !Truthy(apiKey) {
      response := HttpResponse(500, ErrorBody(ConfigError));
      return;
    }
    var modelResponse, lastError;
    modelResponse, lastError, tried := TryModels(Models, gen);
    if modelResponse.None? {
      response := ErrorResponse(ThrownOrUndefined(lastError));
      return;
    }
    var candidates := modelResponse.value.candidates;
    if candidates.None? || |candidates.value| == 0 {
      response := HttpResponse(500, ErrorBody(NoCandidatesError));
      return;
    }
    var candidate := candidates.value[0];
    if candidate.content.None? || candidate.content.value.parts.None? {
      response := HttpResponse(500, ErrorBody(BadFormatError));
      return;
    }
    var description, imageData, mimeType := ExtractParts(candidate.content.value.parts.value);
    if !Truthy(imageData) {
      response := HttpResponse(500, ErrorBody(NoImageError));
      return;
    }
    var imageUrl := DataUrl(mimeType, imageData.value);
    response := HttpResponse(200, SuccessBody(imageUrl, Trim(description), Trim(prompt)));
  }

  /** A prompt that fails validation is answered with 400 before any model is called. */
  lemma InvalidPromptCallsNoModel(f: PromptField, apiKey: Option<string>, gen: string -> ModelOutcome)
    requires !(f.Text? && !AllSpace(f.s) && |f.s| <= MaxPromptLength)
    ensures Respond(Parsed(f), apiKey, gen).response.status == 400
    ensures Respond(Parsed(f), apiKey, gen).tried == []
  {
  }

  /** A valid prompt without a configured key is answered with 500 before any model is called. */
  lemma MissingKeyCallsNoModel(p: string, apiKey: Option<string>, gen: string -> ModelOutcome)
    requires !AllSpace(p) && |p| <= MaxPromptLength && !Truthy(apiKey)
    ensures Respond(Parsed(Text(p)), apiKey, gen) == Handled(HttpResponse(500, ErrorBody(ConfigError)), [])
  {
    assert PromptRejection(Text(p)).None?;
  }

  /** When a model answered, the loop called the models in list order up to that one, and
      every model before it threw. */
  lemma FallbackAnswered(models: seq<string>, gen: string -> ModelOutcome)
    requires FallbackSpec(models, gen).response.Some?
    ensures var fb := FallbackSpec(models, gen);
      && 1 <= |fb.tried| <= |models| && fb.tried == models[..|fb.tried|]
      && gen(fb.tried[|fb.tried| - 1]) == ModelReturned(fb.response.value)
      && (forall j :: 0 <= j < |fb.tried| - 1 ==> gen(fb.tried[j]).ModelThrew?)
  {
    var k := FirstSuccess(models, gen).value;
    assert FallbackSpec(models, gen).tried == models[..k + 1];
  }

  /** A successful answer comes from a valid prompt, and carries the trimmed, non-empty
      prompt and a data URL. */
  lemma SuccessfulRequest(body: RequestBody, apiKey: Option<string>, gen: string -> ModelOutcome)
    requires Respond(body, apiKey, gen).response.status == 200
    ensures body.Parsed? && body.prompt.Text?
    ensures !AllSpace(body.prompt.s) && |body.prompt.s| <= MaxPromptLength
    ensures Truthy(apiKey)
    ensures Respond(body, apiKey, gen).response.body.SuccessBody?
    ensures Respond(body, apiKey, gen).response.body.prompt == Trim(body.prompt.s) != ""
    ensures StartsWith(Respond(body, apiKey, gen).response.body.imageUrl, DataPrefix)
  {
    SuccessCameFromModel(body, apiKey, gen);
    TrimEmptyIff(body.prompt.s);
    var r := Interpret(FallbackSpec(Models, gen).response.value, body.prompt.s);
    assert r.body.SuccessBody? && r.body.prompt == Trim(body.prompt.s);
  }

  /** A successful answer: the models were called in list order up to the first that
      answered, and every one before it threw. */
  lemma SuccessfulModels(body: RequestBody, apiKey: Option<string>, gen: string -> ModelOutcome)
    requires Respond(body, apiKey, gen).response.status == 200
    ensures var h := Respond(body, apiKey, gen);
      && 1 <= |h.tried| <= |Models| && h.tried == Models[..|h.tried|]
      && gen(h.tried[|h.tried| - 1]).ModelReturned?
      && (forall j :: 0 <= j < |h.tried| - 1 ==> gen(h.tried[j]).ModelThrew?)
  {
    SuccessCameFromModel(body, apiKey, gen);
    FallbackAnswered(Models, gen);
  }

  lemma SuccessCameFromModel(body: RequestBody, apiKey: Option<string>, gen: string -> ModelOutcome)
    requires Respond(body, apiKey, gen).response.status == 200
    ensures body.Parsed? && PromptRejection(body.prompt).None? && Truthy(apiKey)
    ensures FallbackSpec(Models, gen).response.Some?
    ensures Respond(body, apiKey, gen)
      == Handled(Interpret(FallbackSpec(Models, gen).response.value, body.prompt.s), FallbackSpec(Models, gen).tried)
  {
  }

  /** The endpoint's main result: a valid prompt, a configured key and a first model answer
      whose first candidate carries parts with inline image data give 200 with the data URL
      of that image and the trimmed description and prompt. */
  lemma SuccessWhenImageReturned(p: string, apiKey: Option<string>, gen: string -> ModelOutcome)
    requires !AllSpace(p) && |p| <= MaxPromptLength && Truthy(apiKey)
    requires FallbackSpec(Models, gen).response.Some?
    requires var resp := FallbackSpec(Models, gen).response.value;
      WellFormed(resp) && Truthy(FirstParts(resp).imageData)
    ensures var resp := FallbackSpec(Models, gen).response.value;
      var ex := FirstParts(resp);
      Respond(Parsed(Text(p)), apiKey, gen).response
        == HttpResponse(200, SuccessBody(DataUrl(ex.mimeType, ex.imageData.value), Trim(ex.description), Trim(p)))
  {
    assert PromptRejection(Text(p)).None?;
  }

  /** When every model throws, the last model's error decides the status. */
  lemma AllModelsFail(p: string, apiKey: Option<string>, gen: string -> ModelOutcome)
    requires !AllSpace(p) && |p| <= MaxPromptLength && Truthy(apiKey)
    requires forall j :: 0 <= j < |Models| ==> gen(Models[j]).ModelThrew?
    ensures Respond(Parsed(Text(p)), apiKey, gen)
      == Handled(ErrorResponse(gen(Models[|Models| - 1]).e), Models)
  {
    FallbackAllThrew(Models, gen);
  }

  /** With every model throwing, the loop calls all of them and keeps the last error. */
  lemma FallbackAllThrew(models: seq<string>, gen: string -> ModelOutcome)
    requires |models| > 0
    requires forall j :: 0 <= j < |models| ==> gen(models[j]).ModelThrew?
    ensures FallbackSpec(models, gen) == Fallback(None, Some(gen(models[|models| - 1]).e), models)
  {
    assert FirstSuccess(models, gen).None?;
  }

  /** `GET` is not supported. */
  function Get(): (r: HttpResponse)
    ensures r.status == 405 && r.body == ErrorBody("Method not allowed")
  {
    HttpResponse(405, ErrorBody("Method not allowed"))
  }
}
