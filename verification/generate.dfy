/**
  The `POST /api/generate` handler: validation of the JSON body, shaping of
  the provider input, and mapping of the provider's reply or exception onto
  the JSON response. The provider call itself is a parameter.
 */
module Generate {
  import opened Wrappers
  import opened Js
  import opened Models

  /** The five properties the handler destructures from the parsed body; absent ones are `Undefined`. */
  datatype GenerateBody = GenerateBody(
    modelId: JsValue,
    prompt: JsValue,
    aspectRatio: JsValue,
    referenceImageUrl: JsValue,
    negativePrompt: JsValue)

  /** The `input` record sent to the provider. */
  type Input = map<string, JsValue>

  /** One entry of the provider's `images` list. */
  datatype ProviderImage = ProviderImage(url: string, width: int, height: int, contentType: string)

  /** What the provider call resolves to: `data.images`, `data.seed` and `requestId`. */
  datatype ProviderReply = ProviderReply(images: Option<seq<ProviderImage>>, seed: JsValue, requestId: string)

  /** The uniform success body. */
  datatype GenerationResult = GenerationResult(
    imageUrl: string,
    width: int,
    height: int,
    seed: JsValue,
    model: string,
    requestId: string)

  /** The handler's answer: a 200 success body, or `{ error }` with a non-2xx status. */
  datatype Response = Generated(result: GenerationResult) | Failed(status: ErrorStatus, error: string)

  const MissingFieldsMessage := "prompt and modelId are required"
  const UnknownModelMessage := "Unknown model"
  const NoImagesMessage := "No images generated"
  const DefaultFailureMessage := "Generation failed"

  /** Every key the handler can put into the provider input. */
  const InputKeys: set<string> := {"prompt", "aspect_ratio", "image_url", "negative_prompt", "output_format", "num_images"}

  /** The HTTP status of a response; `NextResponse.json` defaults to 200. */
  function Status(r: Response): int {
    match r
    case Generated(_) => 200
    case Failed(status, _) => status
  }

  /** `getModelById(modelId)`; strict equality never matches a non-string id. */
  function LookupModel(modelId: JsValue): (r: Option<ModelConfig>)
    ensures r.Some? <==> modelId.Str? && IsRegistered(modelId.s)
    ensures r.Some? ==> r.value in Registry && modelId == Str(r.value.id)
  {
    match modelId
    case Str(id) => GetModelById(id)
    case _ => None
  }

  /** The two early returns: missing fields, then an unknown model. */
  function Validate(body: GenerateBody): (r: Result<ModelConfig, Response>)
    ensures !Truthy(body.prompt) || !Truthy(body.modelId) ==> r == Failure(Failed(400, MissingFieldsMessage))
    ensures Truthy(body.prompt) && Truthy(body.modelId) ==>
      if body.modelId.Str? && IsRegistered(body.modelId.s)
      then r.Success? && r.value.id == body.modelId.s && r.value in Registry
      else r == Failure(Failed(400, UnknownModelMessage))
  {
    if !Truthy(body.prompt) || !Truthy(body.modelId) then
      Failure(Failed(400, MissingFieldsMessage))
    else
      match LookupModel(body.modelId)
      case None => Failure(Failed(400, UnknownModelMessage))
      case Some(model) => Success(model)
  }

  /** A body naming a registry entry by its id, with a truthy prompt, resolves to that entry. */
  lemma ValidateAcceptsRegistryModel(body: GenerateBody, model: ModelConfig)
    requires model in Registry
    requires body.modelId == Str(model.id)
    requires Truthy(body.prompt)
    ensures Validate(body) == Success(model)
  {
    RegistryEntriesWellFormed();
    GetModelByIdOfEntry(model);
  }

  /** The provider input for a validated body and its model. */
  function BuildInput(body: GenerateBody, model: ModelConfig): (input: Input)
    ensures input.Keys <= InputKeys
    ensures "prompt" in input && input["prompt"] == body.prompt
    ensures "output_format" in input && input["output_format"] == Str("jpeg")
    ensures "num_images" in input && input["num_images"] == Number(1.0)
    ensures "aspect_ratio" in input <==> Truthy(body.aspectRatio)
    ensures "aspect_ratio" in input ==> input["aspect_ratio"] == body.aspectRatio
    ensures "image_url" in input <==> Truthy(body.referenceImageUrl) && model.capability == ImageToImage
    ensures "image_url" in input ==> input["image_url"] == body.referenceImageUrl
    ensures "negative_prompt" in input <==> Truthy(body.negativePrompt) && model.supportsNegativePrompt
    ensures "negative_prompt" in input ==> input["negative_prompt"] == body.negativePrompt
  {
    var seeded := map["prompt" := body.prompt];
    var withRatio := if Truthy(body.aspectRatio) then seeded["aspect_ratio" := body.aspectRatio] else seeded;
    var withImage :=
      if Truthy(body.referenceImageUrl) && model.capability == ImageToImage
      then withRatio["image_url" := body.referenceImageUrl]
      else withRatio;
    var withNegative :=
      if Truthy(body.negativePrompt) && model.supportsNegativePrompt
      then withImage["negative_prompt" := body.negativePrompt]
      else withImage;
    withNegative["output_format" := Str("jpeg")]["num_images" := Number(1.0)]
  }

  /** The response for a provider reply: the first image, or a failure when there is none. */
  function MapReply(model: ModelConfig, reply: ProviderReply): (r: Response)
    ensures r.Failed? <==> reply.images == None || reply.images == Some([])
    ensures r.Failed? ==> r == Failed(500, NoImagesMessage)
    ensures r.Generated? ==>
      var first := reply.images.value[0];
      && r.result.imageUrl == first.url
      && r.result.width == first.width
      && r.result.height == first.height
      && r.result.seed == reply.seed
      && r.result.model == model.name
      && r.result.requestId == reply.requestId
  {
    match reply.images
    case None => Failed(500, NoImagesMessage)
    case Some(images) =>
      if |images| == 0 then Failed(500, NoImagesMessage)
      else Generated(GenerationResult(images[0].url, images[0].width, images[0].height,
                                      reply.seed, model.name, reply.requestId))
  }

  /** The `catch` block: status 500 with the error's message, or a generic one. */
  function MapThrown(e: Thrown): (r: Response)
    ensures r.Failed? && r.status == 500
    ensures e.ErrorObject? ==> r.error == e.message
    ensures e.OtherValue? ==> r.error == DefaultFailureMessage
  {
    Failed(500, CaughtMessage(e, DefaultFailureMessage))
  }

  /**
    The whole handler. `request` is the outcome of `req.json()`; `subscribe`
    stands for `fal.subscribe(endpoint, { input })`.
   */
  function Post(request: Attempt<GenerateBody>, subscribe: (string, Input) -> Attempt<ProviderReply>): (r: Response)
    ensures request.Threw? ==> r == MapThrown(request.thrown)
    ensures request.Returned? && Validate(request.value).Failure? ==> r == Validate(request.value).error
    ensures Status(r) == 400 <==> request.Returned? && Validate(request.value).Failure?
    ensures r.Generated? ==>
      && request.Returned?
      && Truthy(request.value.prompt)
      && request.value.modelId.Str?
      && IsRegistered(request.value.modelId.s)
      && r.result.model == GetModelById(request.value.modelId.s).value.name
    ensures request.Returned? && Validate(request.value).Success? ==>
      match subscribe(Validate(request.value).value.endpoint, BuildInput(request.value, Validate(request.value).value))
      case Threw(e) => r == MapThrown(e)
      case Returned(reply) => r == MapReply(Validate(request.value).value, reply)
  {
    match request
    case Threw(e) => MapThrown(e)
    case Returned(body) =>
      match Validate(body)
      case Failure(response) => response
      case Success(model) =>
        match subscribe(model.endpoint, BuildInput(body, model))
        case Threw(e) => MapThrown(e)
        case Returned(reply) => MapReply(model, reply)
  }

  /** A request that fails validation is answered without consulting the provider. */
  lemma RejectedRequestsNeverReachProvider(
    request: Attempt<GenerateBody>,
    subscribe: (string, Input) -> Attempt<ProviderReply>,
    other: (string, Input) -> Attempt<ProviderReply>)
    requires request.Returned? && Validate(request.value).Failure?
    ensures Post(request, subscribe) == Post(request, other)
    ensures Status(Post(request, subscribe)) == 400
  {
  }

  /** A valid request is sent to its model's endpoint with exactly the shaped input. */
  lemma AcceptedRequestsReachProvider(
    body: GenerateBody,
    model: ModelConfig,
    subscribe: (string, Input) -> Attempt<ProviderReply>,
    reply: ProviderReply)
    requires Validate(body) == Success(model)
    requires subscribe(model.endpoint, BuildInput(body, model)) == Returned(reply)
    ensures Post(Returned(body), subscribe) == MapReply(model, reply)
    ensures Post(Returned(body), subscribe).Generated? <==> reply.images.Some? && |reply.images.value| > 0
  {
  }
}
