# dreamsun.ai request handling, modelled in Dafny

The application is a Next.js front end and a thin proxy in front of a hosted
image-generation service. Around its network calls sits a small amount of
deterministic decision logic, and this project models all of it:

- **Model registry** (`models.dfy`, module `Models`). `MODELS` is a constant
  table of eleven `ModelConfig` descriptors. `getModelById` is
  `Array.prototype.find` on the id. The two capability filters list the
  text-to-image and the image-to-image models.
- **`POST /api/generate`** (`generate.dfy`, module `Generate`). Validation
  returns 400 for a missing prompt or model id, or for an unknown model. The
  provider input map carries conditional `aspect_ratio`, `image_url` and
  `negative_prompt` keys, plus fixed `output_format` and `num_images`. The
  provider's reply or exception becomes the JSON response.
- **`POST /api/upload`** (`upload.dfy`, module `Upload`). The argument is
  checked, then a data URL is split by `^data:(.+?);base64,(.+)$` into a MIME
  type and a payload. The storage upload's result or exception becomes the
  response.
- **Home page logic** (`page.dfy`, module `Page`). This covers the
  trimmed-prompt guard and the request body of `handleGenerate`, the state
  update after the reply (error message, current result, history prepend),
  and `handleModelChange`.

Supporting modules:

- `Wrappers`: `Option`, `Result`.
- `Js`: JSON-parsed values, ECMAScript truthiness, thrown values, and the
  shared `e instanceof Error ? e.message : fallback` rule.
- `Text`: ECMAScript white space and line terminators, and
  `String.prototype.trim`.

Effects become parameters. `fal.subscribe` is a function `(endpoint, input) ->
Attempt<ProviderReply>`. `fal.storage.upload` is a function `DataUrl ->
Attempt<string>`. The page's `fetch("/api/generate")` is a function
`RequestBody -> Attempt<Generate.Response>`. `req.json()` is an
`Attempt<body>`. An `Attempt` either returns a value or throws.
Each handler is a pure function of these values. React state is a
`PageState` record, and each handler maps it to the state it leaves behind.

The page recomputes the two capability filters at `src/app/page.tsx:98-103`.
They are the same filters as in `src/lib/models.ts:146-152`, so
`Models.TextToImageModels` and `Models.ImageToImageModels` model both places.

Three facts about the generate route shape the model:

- Every failure of the provider call answers with status 500. The code never
  passes on a provider status code.
- An unknown model answers with 400 and the message "Unknown model".
- Only models whose capability is exactly image-to-image receive `image_url`.
  A model whose capability is `both` never receives it.

## Model

| member | source | states |
|---|---|---|
| Js.Truthy | src/app/api/generate/route.ts:14-19 | `undefined` and `null` are falsy, a string is truthy iff it is non-empty, a number iff it is not zero, a boolean is its own value, and arrays and objects are always truthy; the same test guards the optional keys at route.ts:32-46 and the upload argument at src/app/api/upload/route.ts:16 |
| Js.CaughtMessage | src/app/api/generate/route.ts:77-83 | a caught `Error` yields its own message and any other thrown value yields the fallback, so the answer is always one of those two |
| Models.RegistryEntriesWellFormed | src/lib/models.ts:15-140 | every registry entry has a non-empty id and a non-empty `aspectRatios` list that contains its `defaultAspectRatio` |
| Models.RegistryIdsDistinct | src/lib/models.ts:15-140 | no two registry entries share an `id` |
| Models.RegistryIsWellFormed | src/lib/models.ts:15-140 | the table as a whole satisfies the integrity invariant the rest of the application relies on |
| Models.FindIndex | src/lib/models.ts:143 | scanning from an index, `find` yields the first later index whose entry has the id, and nothing exactly when no such entry exists |
| Models.GetModelById | src/lib/models.ts:142-144 | a model is returned iff some entry has that id; the returned model has that id, is a registry entry, and no earlier entry has the id |
| Models.GetModelByIdOfEntry | src/lib/models.ts:142-144 | because ids are distinct, looking up any entry's id returns that very entry |
| Models.Filter | src/lib/models.ts:146-152 | an entry is in the filtered list iff it is in the input and its capability is the wanted one or `both`; the result is no longer than the input |
| Models.FilterAppend | src/lib/models.ts:146-152 | filtering distributes over concatenation, so registry order is preserved and nothing is reordered or duplicated |
| Models.FilterKeepsAll | src/lib/models.ts:146-152 | filtering a list whose entries all offer the wanted capability returns that list unchanged |
| Models.FilterKeepsNone | src/lib/models.ts:146-152 | filtering a list none of whose entries offers the wanted capability returns the empty list |
| Models.TextToImageModels | src/lib/models.ts:146-148 | the text-to-image list holds exactly the registry entries whose capability is text-to-image or both |
| Models.ImageToImageModels | src/lib/models.ts:150-152 | the image-to-image list holds exactly the registry entries whose capability is image-to-image or both |
| Models.ListsAreSeparated | src/lib/models.ts:146-152 | no text-to-image-only model is in the image-to-image list, and no image-to-image-only model is in the text-to-image list |
| Models.FiltersSplitAt | src/lib/models.ts:146-152 | on a table of text-to-image entries followed by image-to-image entries, the two filters return the two parts in order |
| Models.FiltersPartitionRegistry | src/lib/models.ts:15-152 | on the present table the text-to-image list is the first eight entries and the image-to-image list the last three, and together they are the registry |
| Text.Trim | src/app/page.tsx:46 | `trim` gives the empty string iff every character is white space or a line terminator; otherwise the result starts and ends with a non-blank character and is the input with a blank prefix and a blank suffix removed |
| Text.TrimIdempotent | src/app/page.tsx:54 | trimming an already trimmed prompt changes nothing |
| Generate.LookupModel | src/app/api/generate/route.ts:21 | a model is found iff `modelId` is a string naming a registry entry; under strict equality a non-string id never matches |
| Generate.Validate | src/app/api/generate/route.ts:14-24 | a falsy prompt or model id gives 400 "prompt and modelId are required"; otherwise an unregistered id gives 400 "Unknown model", and a registered one resolves to the registry entry with that id |
| Generate.ValidateAcceptsRegistryModel | src/app/api/generate/route.ts:14-24 | a body with a truthy prompt and a registry entry's id always passes validation and resolves to that entry |
| Generate.BuildInput | src/app/api/generate/route.ts:27-47 | the input always has `prompt` verbatim, `output_format` "jpeg" and `num_images` 1; `aspect_ratio` is present iff the ratio is truthy; `image_url` is present iff the reference is truthy and the capability is exactly image-to-image; `negative_prompt` is present iff it is truthy and the model supports it; present values are passed through unchanged and no other key appears |
| Generate.MapReply | src/app/api/generate/route.ts:55-76 | an absent or empty `images` list, and only that, gives 500 "No images generated"; otherwise the URL and size come from the first image, `model` is the model's name, and seed and request id are passed through |
| Generate.MapThrown | src/app/api/generate/route.ts:77-83 | a thrown `Error` gives 500 with its message; any other thrown value gives 500 "Generation failed" |
| Generate.Post | src/app/api/generate/route.ts:9-84 | a body that cannot be read gives the catch-block response; the status is 400 exactly when validation fails; a valid request is sent to its model's endpoint with the shaped input, and a provider exception is answered by the catch-block rule while a reply is answered by the reply mapping; a success always comes from a truthy prompt and a registered model and names that model |
| Generate.RejectedRequestsNeverReachProvider | src/app/api/generate/route.ts:14-24 | when validation fails, the response does not depend on the provider at all (no call is made) and has status 400 |
| Generate.AcceptedRequestsReachProvider | src/app/api/generate/route.ts:49-68 | a valid request is sent to its model's endpoint with the shaped input, and succeeds iff the reply has at least one image |
| Upload.FirstMatch | src/app/api/upload/route.ts:24 | the lazy group tries lengths in increasing order: the result is the least length from the start at which the rest of the pattern matches, or none if no length works |
| Upload.ParseDataUrl | src/app/api/upload/route.ts:24-33 | the regex matches iff the string starts with `data:` and some split fits the pattern. On a match, both groups are non-empty and free of line terminators, and `data:` + MIME type + `;base64,` + payload rebuilds the input exactly. The MIME type is cut at the earliest separator that leaves a valid tail |
| Upload.NoSeparatorStraddles | src/app/api/upload/route.ts:24 | an occurrence of `;base64,` that starts inside a MIME type without its own separator cannot run into the appended separator |
| Upload.FormatThenParse | src/app/api/upload/route.ts:24-33 | for a non-empty MIME type without `;base64,` and a non-empty payload, both free of line terminators, parsing the formatted data URL gives back exactly that pair |
| Upload.EmptyMimeTypeRejected | src/app/api/upload/route.ts:24-30 | `data:;base64,` followed by a payload without its own separator does not match, because the MIME group needs at least one character |
| Upload.Validate | src/app/api/upload/route.ts:16-30 | a `dataUrl` that is not a non-empty string gives 400 "dataUrl is required"; a string the regex rejects gives 400 "Invalid data URL format"; otherwise the parsed pair is what gets uploaded |
| Upload.Post | src/app/api/upload/route.ts:11-47 | the status is 400 exactly when validation fails, and then the answer is validation's own: "dataUrl is required" or "Invalid data URL format". A valid data URL's parsed pair goes to storage: a returned URL is answered as `{ url }`, and a thrown `Error` gives 500 with its message, any other thrown value 500 "Upload failed". An unreadable body gets the same catch-block answer |
| Upload.RejectedUploadsNeverReachStorage | src/app/api/upload/route.ts:16-30 | a rejected upload's answer does not depend on storage (no upload happens) and is 400 with "dataUrl is required" or "Invalid data URL format" |
| Upload.FormattedUploadIsStored | src/app/api/upload/route.ts:16-40 | a data URL formatted from a non-empty, separator-free MIME type and a non-empty payload, both without line terminators, passes validation as exactly that pair, and a returned storage URL is the answer |
| Page.InitialStateConsistent | src/app/page.tsx:18-19 | the initial model, the first registry entry, offers the initial ratio "16:9" |
| Page.InitialState | src/app/page.tsx:16-25 | the page starts with both prompts empty, no reference image, nothing generating, no result, no error and an empty history; the selected model is the first registry entry and the ratio is that model's default |
| Page.BuildBody | src/app/page.tsx:45-64 | no body is built iff the trimmed prompt is empty. The body carries the selected model's id, the trimmed prompt and the current ratio. `referenceImageUrl` is set iff a non-empty reference exists and the capability is exactly image-to-image. `negativePrompt` is set, trimmed and non-empty, iff its trimmed value is non-empty and the model supports it |
| Page.ToServerBody | src/app/page.tsx:66-70 | after serialisation and destructuring in the route, model id, prompt and ratio arrive as strings; an unset optional field arrives as `undefined`, a set one as exactly the page's string, and each optional field is truthy in the route iff the page set it to a non-empty string |
| Page.HandleGenerate | src/app/page.tsx:45-86 | a blank prompt leaves the state untouched. Otherwise the handler ends not generating and changes only result, error and history. A success becomes the result and is prepended to history. An error reply shows its message, or "Generation failed" when that is empty. A thrown error shows its message or "Network error" |
| Page.FailedReplyShowsMessage | src/app/page.tsx:74-77 | after an error reply the page always shows a non-empty error message |
| Page.SuccessPrependsHistory | src/app/page.tsx:79-80 | after a success the history is one longer, its first entry is the new result, and the older entries follow unchanged |
| Page.HandleModelChange | src/app/page.tsx:88-96 | an unknown id changes nothing. A known id selects that registry model and changes only the model and the ratio. The ratio is kept if the new model offers it and otherwise becomes the model's default, so it always lies in the new model's ratios |
| Page.HandlersKeepConsistent | src/app/page.tsx:88-96 | from a consistent state, both handlers leave the selected model a registry entry that offers the selected ratio |
| Page.PageFieldsForwarded | src/app/page.tsx:52-64 | for a non-blank prompt, the route's input built from the page's body carries the trimmed prompt. It has `aspect_ratio` iff the ratio is non-empty, and `image_url` and `negative_prompt` exactly when the page set them, with the page's values |
| Page.PageRequestsPassValidation | src/app/page.tsx:52-56 | a body the page builds for a registry model always passes the route's validation and resolves to the selected model, so the page never triggers the route's 400 answers |

## Left out

- Network and storage calls (`fal.subscribe`, `fal.storage.upload`, `fal.config`, `fetch`) are parameters returning a value or a thrown value. Their asynchrony, the provider's logs and its credentials are not modelled.
- Base64 decoding and `Blob` construction in the upload route stop at the parsed `(mimeType, base64Data)` pair. The storage parameter receives that pair.
- Browser code is not modelled: `FileReader`, the reference preview, refs, and all JSX. This includes the aspect-ratio buttons, which only offer the selected model's ratios.
- The intermediate `isGenerating = true` state while the request is in flight is not modelled. `Page.HandleGenerate` returns the state after the `finally` block.
- `console.error` logging and the upload route's `maxDuration` setting are not modelled.
- `name`, `description`, `costPerImage` and `endpoint` are carried as opaque strings.
- A JSON body of `null` makes the handlers' destructuring throw. It is folded into the `Attempt` for `req.json()` as a thrown error.
- The provider reply is typed: `images` is either absent or a list of records with `url`, `width`, `height` and `content_type`. A non-array `images` value is not modelled.
- Widths and heights are integers, not IEEE doubles.
- An error response always has a non-2xx status, and the routes produce only 400 and 500. A 2xx reply with an error body, which would reach `setResult`, therefore cannot arise in the model.
- Key order in the provider input and in JSON bodies is not modelled. The input is a map.
- Strings are sequences of Unicode scalar values, while JavaScript strings are sequences of UTF-16 code units. The upload regex has no `u` flag, so its `.` matches single code units. Inputs that contain lone surrogates, which `JSON.parse` can produce from `\uD800`-style escapes, are outside the model.
