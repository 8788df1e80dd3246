/**
  The non-UI logic of the home page: the prompt guard and request body built
  by `handleGenerate`, the state update after the reply, and
  `handleModelChange`. The `fetch` call is a parameter; React state is a
  record that each handler maps to its final value.
 */
module Page {
  import opened Wrappers
  import opened Js
  import opened Text
  import opened Models
  import Generate

  /** The page's state hooks (the preview, refs and render-only state are left out). */
  datatype PageState = PageState(
    prompt: string,
    negativePrompt: string,
    selectedModel: ModelConfig,
    aspectRatio: string,
    referenceImage: Option<string>,
    isGenerating: bool,
    result: Option<Generate.GenerationResult>,
    error: Option<string>,
    history: seq<Generate.GenerationResult>)

  /** The body `handleGenerate` posts to `/api/generate`; `None` is a property it does not set. */
  datatype RequestBody = RequestBody(
    modelId: string,
    prompt: string,
    aspectRatio: string,
    referenceImageUrl: Option<string>,
    negativePrompt: Option<string>)

  const DefaultFailureMessage := "Generation failed"
  const NetworkErrorMessage := "Network error"

  /** The state the hooks start in: the first registry entry and ratio "16:9". */
  function InitialState(): (s: PageState)
    ensures s.prompt == "" && s.negativePrompt == "" && s.referenceImage.None?
    ensures s.selectedModel == Registry[0] && s.aspectRatio == s.selectedModel.defaultAspectRatio
    ensures !s.isGenerating && s.result.None? && s.error.None? && s.history == []
  {
    PageState("", "", Registry[0], "16:9", None, false, None, None, [])
  }

  /** The selected model is a registry entry and offers the selected ratio. */
  predicate Consistent(s: PageState) {
    s.selectedModel in Registry && s.aspectRatio in s.selectedModel.aspectRatios
  }

  /** The page starts out consistent. */
  lemma InitialStateConsistent()
    ensures Consistent(InitialState())
  {
    assert Registry[0].aspectRatios == WideRatios;
  }

  /** `referenceImage` (a `string | null`) is truthy. */
  predicate HasReferenceImage(s: PageState) {
    s.referenceImage.Some? && s.referenceImage.value != ""
  }

  /** The guard and the body of `handleGenerate`: nothing is sent when the trimmed prompt is empty. */
  function BuildBody(s: PageState): (r: Option<RequestBody>)
    ensures r.None? <==> Blank(s.prompt)
    ensures r.Some? ==>
      && r.value.modelId == s.selectedModel.id
      && r.value.prompt == Trim(s.prompt)
      && r.value.prompt != ""
      && r.value.aspectRatio == s.aspectRatio
    ensures r.Some? ==>
      (r.value.referenceImageUrl.Some? <==> HasReferenceImage(s) && s.selectedModel.capability == ImageToImage)
    ensures r.Some? && r.value.referenceImageUrl.Some? ==> r.value.referenceImageUrl == s.referenceImage
    ensures r.Some? ==>
      (r.value.negativePrompt.Some? <==> !Blank(s.negativePrompt) && s.selectedModel.supportsNegativePrompt)
    ensures r.Some? && r.value.negativePrompt.Some? ==>
      && r.value.negativePrompt.value == Trim(s.negativePrompt)
      && r.value.negativePrompt.value != ""
  {
    var prompt := Trim(s.prompt);
    if prompt == "" then None
    else
      var reference :=
        if HasReferenceImage(s) && s.selectedModel.capability == ImageToImage
        then s.referenceImage
        else None;
      var negative := Trim(s.negativePrompt);
      var negativeField := if negative != "" && s.selectedModel.supportsNegativePrompt then Some(negative) else None;
      Some(RequestBody(s.selectedModel.id, prompt, s.aspectRatio, reference, negativeField))
  }

  /** `JSON.stringify` on the page followed by `req.json()` in the route: unset properties read as `undefined`. */
  function ToServerBody(b: RequestBody): (r: Generate.GenerateBody)
    ensures r.modelId == Str(b.modelId) && r.prompt == Str(b.prompt) && r.aspectRatio == Str(b.aspectRatio)
    ensures Truthy(r.prompt) <==> b.prompt != ""
    ensures Truthy(r.aspectRatio) <==> b.aspectRatio != ""
    ensures b.referenceImageUrl.Some? ==> r.referenceImageUrl == Str(b.referenceImageUrl.value)
    ensures r.referenceImageUrl == Undefined <==> b.referenceImageUrl.None?
    ensures Truthy(r.referenceImageUrl) <==> b.referenceImageUrl.Some? && b.referenceImageUrl.value != ""
    ensures r.referenceImageUrl.Str? ==> b.referenceImageUrl == Some(r.referenceImageUrl.s)
    ensures b.negativePrompt.Some? ==> r.negativePrompt == Str(b.negativePrompt.value)
    ensures r.negativePrompt == Undefined <==> b.negativePrompt.None?
    ensures Truthy(r.negativePrompt) <==> b.negativePrompt.Some? && b.negativePrompt.value != ""
    ensures r.negativePrompt.Str? ==> b.negativePrompt == Some(r.negativePrompt.s)
  {
    Generate.GenerateBody(
      Str(b.modelId),
      Str(b.prompt),
      Str(b.aspectRatio),
      match b.referenceImageUrl case Some(url) => Str(url) case None => Undefined,
      match b.negativePrompt case Some(text) => Str(text) case None => Undefined)
  }

  /**
    `handleGenerate` from start to the `finally` block. `fetch` stands for the
    POST to `/api/generate` and `res.json()`; it throws on network or parse errors.
   */
  function HandleGenerate(s: PageState, fetch: RequestBody -> Attempt<Generate.Response>): (r: PageState)
    ensures Blank(s.prompt) ==> r == s
    ensures !Blank(s.prompt) ==>
      && !r.isGenerating
      && r.(isGenerating := s.isGenerating, result := s.result, error := s.error, history := s.history) == s
    ensures !Blank(s.prompt) ==>
      var reply := fetch(BuildBody(s).value);
      match reply
      case Returned(Generated(res)) =>
        r.result == Some(res) && r.history == [res] + s.history && r.error == None
      case Returned(Failed(_, message)) =>
        && r.result == s.result && r.history == s.history
        && r.error == Some(if message != "" then message else DefaultFailureMessage)
      case Threw(e) =>
        && r.result == s.result && r.history == s.history
        && r.error == Some(CaughtMessage(e, NetworkErrorMessage))
  {
    match BuildBody(s)
    case None => s
    case Some(body) =>
      var started := s.(isGenerating := true, error := None);
      var finished :=
        match fetch(body)
        case Threw(e) => started.(error := Some(CaughtMessage(e, NetworkErrorMessage)))
        case Returned(Failed(_, message)) =>
          started.(error := Some(if message != "" then message else DefaultFailureMessage))
        case Returned(Generated(res)) => started.(result := Some(res), history := [res] + started.history);
      finished.(isGenerating := false)
  }

  /** A reply with an error status always leaves a non-empty message on the page. */
  lemma FailedReplyShowsMessage(s: PageState, fetch: RequestBody -> Attempt<Generate.Response>)
    requires !Blank(s.prompt)
    requires fetch(BuildBody(s).value).Returned? && fetch(BuildBody(s).value).value.Failed?
    ensures HandleGenerate(s, fetch).error.Some? && HandleGenerate(s, fetch).error.value != ""
  {
  }

  /** A successful reply is the new first history entry; older entries keep their order. */
  lemma SuccessPrependsHistory(s: PageState, fetch: RequestBody -> Attempt<Generate.Response>, res: Generate.GenerationResult)
    requires !Blank(s.prompt)
    requires fetch(BuildBody(s).value) == Returned(Generate.Generated(res))
    ensures var h := HandleGenerate(s, fetch).history;
      |h| == |s.history| + 1 && h[0] == res && h[1..] == s.history
  {
  }

  /** `handleModelChange`: select a registry model, keeping the ratio when the new model offers it. */
  function HandleModelChange(s: PageState, modelId: string): (r: PageState)
    ensures !IsRegistered(modelId) ==> r == s
    ensures IsRegistered(modelId) ==>
      && r.selectedModel.id == modelId
      && r.selectedModel in Registry
      && r.aspectRatio in r.selectedModel.aspectRatios
      && (s.aspectRatio in r.selectedModel.aspectRatios ==> r.aspectRatio == s.aspectRatio)
      && (s.aspectRatio !in r.selectedModel.aspectRatios ==> r.aspectRatio == r.selectedModel.defaultAspectRatio)
      && r.(selectedModel := s.selectedModel, aspectRatio := s.aspectRatio) == s
  {
    match GetModelById(modelId)
    case None => s
    case Some(model) =>
      RegistryEntriesWellFormed();
      var ratio := if s.aspectRatio in model.aspectRatios then s.aspectRatio else model.defaultAspectRatio;
      s.(selectedModel := model, aspectRatio := ratio)
  }

  /** Both handlers keep the page consistent. */
  lemma HandlersKeepConsistent(s: PageState, modelId: string, fetch: RequestBody -> Attempt<Generate.Response>)
    requires Consistent(s)
    ensures Consistent(HandleModelChange(s, modelId))
    ensures Consistent(HandleGenerate(s, fetch))
  {
  }

  /** The route's input carries the trimmed prompt and exactly the optional fields the page set. */
  lemma PageFieldsForwarded(s: PageState)
    requires !Blank(s.prompt)
    ensures BuildBody(s).Some?
    ensures var body := BuildBody(s).value;
      var input := Generate.BuildInput(ToServerBody(body), s.selectedModel);
      && input["prompt"] == Str(Trim(s.prompt))
      && ("aspect_ratio" in input <==> s.aspectRatio != "")
      && ("image_url" in input <==> body.referenceImageUrl.Some?)
      && ("image_url" in input ==> input["image_url"] == Str(s.referenceImage.value))
      && ("negative_prompt" in input <==> body.negativePrompt.Some?)
      && ("negative_prompt" in input ==> input["negative_prompt"] == Str(Trim(s.negativePrompt)))
  {
    var body := BuildBody(s).value;
    var server := ToServerBody(body);
    assert Truthy(server.referenceImageUrl) <==> body.referenceImageUrl.Some?;
    assert Truthy(server.negativePrompt) <==> body.negativePrompt.Some?;
  }

  /**
    A body the page sends for a registry model always passes the route's
    validation and resolves to the selected model.
   */
  lemma PageRequestsPassValidation(s: PageState)
    requires s.selectedModel in Registry
    requires !Blank(s.prompt)
    ensures BuildBody(s).Some?
    ensures Generate.Validate(ToServerBody(BuildBody(s).value)) == Success(s.selectedModel)
  {
    Generate.ValidateAcceptsRegistryModel(ToServerBody(BuildBody(s).value), s.selectedModel);
  }
}
