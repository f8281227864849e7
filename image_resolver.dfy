/**
 * `generateImage`: ask the image backend, through the retry wrapper, for one PNG of the requested
 * shape, and turn the answer into an image reference: an inline data URI on success, a placeholder
 * picture of the same shape on any failure. It never throws.
 */
module ImageResolver {
  import opened AspectRatio
  import opened Retry
  import JsText

  /** The request `generateImages` is sent. */
  datatype ImageRequest = ImageRequest(
    model: string, prompt: string, numberOfImages: nat, outputMimeType: string, aspectRatio: string)

  /**
   * The image backend: the outcome of its n-th call with a request. A resolved call carries the
   * base64 bytes of each generated image, in order.
   */
  type ImageBackend = (ImageRequest, nat) -> Attempt<seq<string>>

  /** The request for one image of the given prompt and shape. */
  function RequestFor(prompt: string, ratio: AspectRatio): (q: ImageRequest)
    ensures q.prompt == prompt && q.aspectRatio == ratio.Name() && q.numberOfImages == 1
  {
    ImageRequest("imagen-4.0-generate-001", prompt, 1, "image/png", ratio.Name())
  }

  /** The script of outcomes the retry wrapper sees for one prompt. */
  function Script(backend: ImageBackend, prompt: string, ratio: AspectRatio): nat -> Attempt<seq<string>>
  {
    (n: nat) => backend(RequestFor(prompt, ratio), n)
  }

  const DataUriPrefix := "data:image/png;base64,"
  const PlaceholderHost := "https://via.placeholder.com/"
  const PlaceholderQuery := ".png?text=Image+Gen+Failed"

  /** The placeholder's width and height, as the strings the URL is built from. */
  function PlaceholderDims(ratio: AspectRatio): (string, string)
  {
    if ratio == Square then ("800", "800") else if ratio == Wide then ("1280", "720") else ("720", "1280")
  }

  /** The placeholder's width and height in pixels. */
  function PlaceholderSize(ratio: AspectRatio): (nat, nat)
  {
    match ratio
    case Square => (800, 800)
    case Wide => (1280, 720)
    case Tall => (720, 1280)
  }

  /** The placeholder reference `https://via.placeholder.com/{W}x{H}.png?text=Image+Gen+Failed`. */
  function Placeholder(ratio: AspectRatio): string
  {
    PlaceholderHost + PlaceholderDims(ratio).0 + "x" + PlaceholderDims(ratio).1 + PlaceholderQuery
  }

  /** What the image request succeeded with, if it did and named at least one image. */
  predicate Generated(outcome: Outcome<seq<string>>)
  {
    outcome.Returned? && |outcome.value| > 0
  }

  /**
   * The reference `generateImage` returns once the retried request has ended: the first image's
   * bytes behind the data URI prefix, or the placeholder when the request threw or named no image
   * (reading `generatedImages[0]` of an empty list throws too).
   */
  function ImageReference(outcome: Outcome<seq<string>>, ratio: AspectRatio): string
  {
    if Generated(outcome) then DataUriPrefix + outcome.value[0] else Placeholder(ratio)
  }

  /** The reference `generateImage(prompt, ratio)` returns for a given backend. */
  function ImageFor(backend: ImageBackend, prompt: string, ratio: AspectRatio): string
  {
    ImageReference(RetrySpec(Script(backend, prompt, ratio), 3, 1000).outcome, ratio)
  }

  /** `generateImage`: the retried backend call followed by the success/placeholder choice. */
  method GenerateImage(backend: ImageBackend, prompt: string, ratio: AspectRatio) returns (url: string)
    ensures url == ImageFor(backend, prompt, ratio)
    ensures JsText.StartsWith(url, DataUriPrefix) || url == Placeholder(ratio)
  {
    var outcome, calls, delays := RetryRequest(Script(backend, prompt, ratio), 3, 1000);
    url := ImageReference(outcome, ratio);
    ReferenceKinds(outcome, ratio);
  }

  /**
   * The placeholder's size has exactly the requested shape (W : H equals the ratio), and its URL
   * spells that size in decimal.
   */
  lemma PlaceholderFitsRatio(ratio: AspectRatio)
    ensures var (w, h) := PlaceholderSize(ratio);
      && w > 0 && h > 0
      && w * ratio.Down() == h * ratio.Across()
      && PlaceholderDims(ratio) == (JsText.DecimalString(w), JsText.DecimalString(h))
  {
    SizeDigits();
  }

  /** The decimal spelling of the placeholder sizes. */
  lemma SizeDigits()
    ensures JsText.DecimalString(800) == "800"
    ensures JsText.DecimalString(720) == "720"
    ensures JsText.DecimalString(1280) == "1280"
  {
    assert JsText.DecimalString(80) == "80";
    assert JsText.DecimalString(72) == "72";
    assert JsText.DecimalString(12) == "12";
    assert JsText.DecimalString(128) == "128";
  }

  /**
   * A reference is a data URI exactly when an image was generated, and then carries that image's
   * bytes; otherwise it is the placeholder of the requested shape. Both are non-empty.
   */
  lemma ReferenceKinds(outcome: Outcome<seq<string>>, ratio: AspectRatio)
    ensures var r := ImageReference(outcome, ratio);
      && |r| > 0
      && (JsText.StartsWith(r, DataUriPrefix) <==> Generated(outcome))
      && (Generated(outcome) ==> r[|DataUriPrefix|..] == outcome.value[0])
      && (!Generated(outcome) ==> r == Placeholder(ratio))
  {
    var r := ImageReference(outcome, ratio);
    if !Generated(outcome) {
      assert r[0] == 'h';
    }
  }

  /** Different shapes give different placeholders, so a failed image still records its shape. */
  lemma PlaceholdersDiffer(a: AspectRatio, b: AspectRatio)
    requires a != b
    ensures Placeholder(a) != Placeholder(b)
  {
    assert Placeholder(a)[28] != Placeholder(b)[28];
  }

  /** With an image backend that always fails, every prompt resolves to the placeholder of its shape. */
  lemma AlwaysFailingBackend(backend: ImageBackend, prompt: string, ratio: AspectRatio)
    requires forall q, n :: backend(q, n).Rejected?
    ensures ImageFor(backend, prompt, ratio) == Placeholder(ratio)
  {
    var request := Script(backend, prompt, ratio);
    var run := RetrySpec(request, 3, 1000);
    RetryShape(request, 3, 1000);
    assert request(run.calls - 1) == backend(RequestFor(prompt, ratio), run.calls - 1);
  }
}
