/**
  The model registry: a constant, ordered table of model descriptors, lookup
  by id (`Array.prototype.find`) and the two capability filters
  (`Array.prototype.filter`).
 */
module Models {
  import opened Wrappers

  /** What kind of generation a model performs. */
  datatype Capability = TextToImage | ImageToImage | Both

  /**
    One descriptor. `name`, `description` and `costPerImage` are display text
    and `endpoint` is the provider's job address; none of them has behaviour.
   */
  datatype ModelConfig = ModelConfig(
    id: string,
    name: string,
    endpoint: string,
    capability: Capability,
    description: string,
    costPerImage: string,
    aspectRatios: seq<string>,
    defaultAspectRatio: string,
    supportsNegativePrompt: bool)

  /** The nine-ratio list shared by the FLUX and Nano Banana text-to-image models. */
  const WideRatios: seq<string> := ["21:9", "16:9", "4:3", "3:2", "1:1", "2:3", "3:4", "9:16", "9:21"]

  /** The five-ratio list shared by the remaining models. */
  const CommonRatios: seq<string> := ["16:9", "4:3", "1:1", "3:4", "9:16"]

  // The eleven descriptors of `MODELS`, one constant each.

  const FluxProUltra: ModelConfig :=
    ModelConfig("flux-pro-ultra", "FLUX Pro 1.1 Ultra", "fal-ai/flux-pro/v1.1-ultra", TextToImage,
      "Best quality FLUX model. 4MP max resolution.", "$0.06", WideRatios, "16:9", false)
  const FluxPro: ModelConfig :=
    ModelConfig("flux-pro", "FLUX Pro 1.1", "fal-ai/flux-pro/v1.1", TextToImage,
      "High quality FLUX, slightly lower resolution than Ultra.", "$0.05", WideRatios, "16:9", false)
  const FluxDev: ModelConfig :=
    ModelConfig("flux-dev", "FLUX Dev", "fal-ai/flux/dev", TextToImage,
      "Good balance of quality and cost. 12B params.", "$0.025", WideRatios, "16:9", false)
  const FluxSchnell: ModelConfig :=
    ModelConfig("flux-schnell", "FLUX Schnell", "fal-ai/flux/schnell", TextToImage,
      "Ultra-fast (~1 second). Great for testing.", "$0.003", WideRatios, "16:9", false)
  const NanoBananaPro: ModelConfig :=
    ModelConfig("nano-banana-pro", "Nano Banana Pro", "fal-ai/nano-banana-pro", TextToImage,
      "Google's latest. Excellent character consistency and typography.", "$0.15", WideRatios, "16:9", true)
  const RecraftV3: ModelConfig :=
    ModelConfig("recraft-v3", "Recraft V3", "fal-ai/recraft-v3", TextToImage,
      "Best for text/typography in images. Vector art support.", "$0.04", CommonRatios, "16:9", false)
  const GrokImagine: ModelConfig :=
    ModelConfig("grok-imagine", "Grok Imagine Image", "xai/grok-imagine-image", TextToImage,
      "xAI's highly aesthetic image generation model.", "~$0.07", CommonRatios, "1:1", false)
  const Flux2Flex: ModelConfig :=
    ModelConfig("flux-2-flex", "FLUX 2 Flex", "fal-ai/flux-2-flex", TextToImage,
      "Latest FLUX 2. Adjustable steps, enhanced typography.", "~$0.05", WideRatios, "16:9", false)
  const FluxKontext: ModelConfig :=
    ModelConfig("flux-kontext", "FLUX Kontext Pro", "fal-ai/flux-pro/kontext", ImageToImage,
      "Reference image + prompt. Targeted edits and scene transformations.", "~$0.08", CommonRatios, "1:1", false)
  const NanoBananaProEdit: ModelConfig :=
    ModelConfig("nano-banana-pro-edit", "Nano Banana Pro (Edit)", "fal-ai/nano-banana-pro/edit", ImageToImage,
      "Google's model with image editing. Provide image + instructions.", "$0.15", CommonRatios, "1:1", true)
  const GrokImagineEdit: ModelConfig :=
    ModelConfig("grok-imagine-edit", "Grok Imagine (Edit)", "xai/grok-imagine-image/edit", ImageToImage,
      "Edit images precisely with xAI's Grok Imagine model.", "~$0.07", CommonRatios, "1:1", false)

  /** `MODELS`, in source order: eight text-to-image models, then three image-to-image models. */
  const Registry: seq<ModelConfig> := [
    FluxProUltra,
    FluxPro,
    FluxDev,
    FluxSchnell,
    NanoBananaPro,
    RecraftV3,
    GrokImagine,
    Flux2Flex,
    FluxKontext,
    NanoBananaProEdit,
    GrokImagineEdit
  ]

  // ---------------------------------------------------------------------------
  // Integrity of the table
  // ---------------------------------------------------------------------------

  /** A descriptor the rest of the application can rely on. */
  predicate WellFormedModel(m: ModelConfig) {
    && m.id != ""
    && |m.aspectRatios| > 0
    && m.defaultAspectRatio in m.aspectRatios
  }

  /** No two entries share an id. */
  predicate DistinctIds(ms: seq<ModelConfig>) {
    forall i, j :: 0 <= i < j < |ms| ==> ms[i].id != ms[j].id
  }

  predicate WellFormedRegistry(ms: seq<ModelConfig>) {
    && (forall m :: m in ms ==> WellFormedModel(m))
    && DistinctIds(ms)
  }

  /** Every entry has a non-empty id and ratio list holding its default ratio. */
  lemma RegistryEntriesWellFormed()
    ensures forall m :: m in Registry ==> WellFormedModel(m)
  {
    assert "16:9" in WideRatios && "16:9" in CommonRatios && "1:1" in CommonRatios;
  }

  /** The eleven ids are pairwise different. */
  lemma RegistryIdsDistinct()
    ensures DistinctIds(Registry)
  {
  }

  /** The constant table satisfies the integrity invariants. */
  lemma RegistryIsWellFormed()
    ensures WellFormedRegistry(Registry)
  {
    RegistryEntriesWellFormed();
    RegistryIdsDistinct();
  }

  // ---------------------------------------------------------------------------
  // Lookup
  // ---------------------------------------------------------------------------

  /** Some id of the table is `id`. */
  predicate IsRegistered(id: string) {
    exists i :: 0 <= i < |Registry| && Registry[i].id == id
  }

  /** `ms.findIndex((m) => m.id === id)` scanning from index `k`, with `None` for -1. */
  function FindIndex(ms: seq<ModelConfig>, id: string, k: nat): (r: Option<nat>)
    requires k <= |ms|
    ensures r.None? <==> forall j :: k <= j < |ms| ==> ms[j].id != id
    ensures r.Some? ==> k <= r.value < |ms| && ms[r.value].id == id
    ensures r.Some? ==> forall j :: k <= j < r.value ==> ms[j].id != id
    decreases |ms| - k
  {
    if k == |ms| then None
    else if ms[k].id == id then Some(k)
    else FindIndex(ms, id, k + 1)
  }

  /** `getModelById`: the first entry whose id is `id`, if there is one. */
  function GetModelById(id: string): (r: Option<ModelConfig>)
    ensures r.Some? <==> IsRegistered(id)
    ensures r.Some? ==> r.value.id == id && r.value in Registry
    ensures r.Some? ==> exists i :: 0 <= i < |Registry| && Registry[i] == r.value
                                    && forall j :: 0 <= j < i ==> Registry[j].id != id
  {
    match FindIndex(Registry, id, 0)
    case None => None
    case Some(i) => Some(Registry[i])
  }

  /** Since ids are distinct, looking up an entry's id yields that very entry. */
  lemma GetModelByIdOfEntry(m: ModelConfig)
    requires m in Registry
    ensures GetModelById(m.id) == Some(m)
  {
    RegistryIsWellFormed();
    var k :| 0 <= k < |Registry| && Registry[k] == m;
  }

  // ---------------------------------------------------------------------------
  // Capability filters
  // ---------------------------------------------------------------------------

  /** `m` is listed under the `wanted` kind: its capability is that kind or `Both`. */
  predicate Offers(m: ModelConfig, wanted: Capability) {
    m.capability == wanted || m.capability == Both
  }

  /** `ms.filter((m) => m.capability === wanted || m.capability === "both")`. */
  function Filter(ms: seq<ModelConfig>, wanted: Capability): (r: seq<ModelConfig>)
    ensures forall m :: m in r <==> m in ms && Offers(m, wanted)
    ensures |r| <= |ms|
  {
    if |ms| == 0 then []
    else if Offers(ms[0], wanted) then [ms[0]] + Filter(ms[1..], wanted)
    else Filter(ms[1..], wanted)
  }

  /**
    Filtering commutes with concatenation. Together with the one-element case
    this pins `Filter` down as the order-preserving subsequence of kept entries.
   */
  lemma {:induction false} FilterAppend(a: seq<ModelConfig>, b: seq<ModelConfig>, wanted: Capability)
    ensures Filter(a + b, wanted) == Filter(a, wanted) + Filter(b, wanted)
  {
    if |a| == 0 {
      assert a + b == b;
    } else {
      assert (a + b)[0] == a[0];
      assert (a + b)[1..] == a[1..] + b;
      FilterAppend(a[1..], b, wanted);
      if Offers(a[0], wanted) {
        calc {
          Filter(a + b, wanted);
          [a[0]] + Filter(a[1..] + b, wanted);
          [a[0]] + (Filter(a[1..], wanted) + Filter(b, wanted));
          ([a[0]] + Filter(a[1..], wanted)) + Filter(b, wanted);
        }
      }
    }
  }

  /** Filtering a sequence whose entries are all kept changes nothing. */
  lemma {:induction false} FilterKeepsAll(ms: seq<ModelConfig>, wanted: Capability)
    requires forall i :: 0 <= i < |ms| ==> Offers(ms[i], wanted)
    ensures Filter(ms, wanted) == ms
  {
    if |ms| > 0 {
      assert Offers(ms[0], wanted);
      FilterKeepsAll(ms[1..], wanted);
      assert ms == [ms[0]] + ms[1..];
    }
  }

  /** Filtering a sequence none of whose entries is kept leaves nothing. */
  lemma FilterKeepsNone(ms: seq<ModelConfig>, wanted: Capability)
    requires forall i :: 0 <= i < |ms| ==> !Offers(ms[i], wanted)
    ensures Filter(ms, wanted) == []
  {
  }

  /** `getTextToImageModels`. */
  function TextToImageModels(): (r: seq<ModelConfig>)
    ensures forall m :: m in r <==> m in Registry && (m.capability == TextToImage || m.capability == Both)
  {
    Filter(Registry, TextToImage)
  }

  /** `getImageToImageModels`. */
  function ImageToImageModels(): (r: seq<ModelConfig>)
    ensures forall m :: m in r <==> m in Registry && (m.capability == ImageToImage || m.capability == Both)
  {
    Filter(Registry, ImageToImage)
  }

  /** The two lists never offer a model of the other kind only. */
  lemma ListsAreSeparated()
    ensures forall m :: m in ImageToImageModels() ==> m.capability != TextToImage
    ensures forall m :: m in TextToImageModels() ==> m.capability != ImageToImage
  {
  }

  /** The capability column of the table: eight text-to-image entries, then image-to-image ones. */
  lemma RegistryCapabilities()
    ensures |Registry| == 11
    ensures forall i :: 0 <= i < 8 ==> Registry[i].capability == TextToImage
    ensures forall i :: 8 <= i < |Registry| ==> Registry[i].capability == ImageToImage
  {
  }

  /** A table whose first `n` entries are text-to-image only and whose rest are image-to-image only. */
  lemma {:induction false} FiltersSplitAt(ms: seq<ModelConfig>, n: nat)
    requires n <= |ms|
    requires forall i :: 0 <= i < n ==> ms[i].capability == TextToImage
    requires forall i :: n <= i < |ms| ==> ms[i].capability == ImageToImage
    ensures Filter(ms, TextToImage) == ms[..n]
    ensures Filter(ms, ImageToImage) == ms[n..]
  {
    var front, back := ms[..n], ms[n..];
    assert ms == front + back;
    FilterAppend(front, back, TextToImage);
    FilterAppend(front, back, ImageToImage);
    FilterKeepsAll(front, TextToImage);
    FilterKeepsAll(back, ImageToImage);
    FilterKeepsNone(back, TextToImage);
    FilterKeepsNone(front, ImageToImage);
  }

  /**
    On the present table the filters split the registry in source order: the
    first eight entries are text-to-image and the last three image-to-image.
   */
  lemma FiltersPartitionRegistry()
    ensures TextToImageModels() == Registry[..8]
    ensures ImageToImageModels() == Registry[8..]
    ensures TextToImageModels() + ImageToImageModels() == Registry
  {
    RegistryCapabilities();
    FiltersSplitAt(Registry, 8);
    assert Registry[..8] + Registry[8..] == Registry;
  }
}
