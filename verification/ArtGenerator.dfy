/**
 Talking to the image and text models (src/services/artGenerator.ts): picking
 a theme and its style modifier for the concept prompt, the image-generation
 retry loop, and the fallback text of the announcement message.

 Every model call is an outcome parameter, and the random theme pick is an index.
 */
module ArtGenerator {
  import opened JsText
  import opened Results
  import IpfsUploader

  // ===========================================================================
  // Concept prompt (`generateArtPrompt`)
  // ===========================================================================

  /** The style modifier known for each theme. */
  const StyleModifiers: map<Str, Str> := map[
    Lit("surreal") := Lit("surrealist dreamscape with melting forms and impossible geometry, Salvador Dali inspired"),
    Lit("cyberpunk") := Lit("neon-lit cyberpunk cityscape with holographic elements and rain-slicked streets"),
    Lit("abstract") := Lit("bold abstract expressionism with dynamic brushstrokes and vibrant color fields"),
    Lit("cosmic") := Lit("cosmic nebula with swirling galaxies, stardust, and ethereal light"),
    Lit("dreamscape") := Lit("ethereal dreamscape with floating islands and bioluminescent flora"),
    Lit("vaporwave") := Lit("vaporwave aesthetic with pink and blue gradients, greek statues, and retro tech"),
    Lit("minimalist") := Lit("minimalist composition with clean lines and negative space"),
    Lit("glitch") := Lit("glitch art with digital artifacts, RGB splitting, and data corruption aesthetics"),
    Lit("nature") := Lit("fantastical nature scene with impossible plants and magical creatures"),
    Lit("geometric") := Lit("sacred geometry patterns with fractals and mathematical beauty")
  ]

  /**
   `styleModifiers[theme] || theme`: every table entry is non-empty, so a known
   theme gets its entry and any other theme stands for itself.
   */
  function StyleModifier(theme: Str): (r: Str)
    ensures theme in StyleModifiers ==> r == StyleModifiers[theme]
    ensures theme !in StyleModifiers ==> r == theme
  {
    if theme in StyleModifiers && |StyleModifiers[theme]| > 0 then StyleModifiers[theme] else theme
  }

  /** The JSON the chat model answers with. */
  datatype ConceptReply = ConceptReply(title: Str, description: Str, imagePrompt: Str)

  /** `GeneratedPrompt`. */
  datatype GeneratedPrompt = GeneratedPrompt(prompt: Str, theme: Str, title: Str, description: Str)

  /** The style text the concept request was built around, and the concept returned or the error thrown. */
  datatype ConceptRun = ConceptRun(style: Str, result: Result<GeneratedPrompt>)

  /**
   `generateArtPrompt`: the theme `themes[pick]` (Math.random picks the index),
   its style modifier in the request, and the reply's fields in the result.
   */
  function GenerateArtPrompt(themes: seq<Str>, pick: nat, reply: Result<ConceptReply>): (run: ConceptRun)
    requires pick < |themes|
    ensures run.style == StyleModifier(themes[pick])
    ensures run.result.Ok? <==> reply.Ok?
    ensures run.result.Ok? ==> run.result.value.theme in themes
    ensures run.result.Ok? ==> run.result.value == GeneratedPrompt(reply.value.imagePrompt, themes[pick],
                                                                   reply.value.title, reply.value.description)
    ensures run.result.Err? ==> run.result.error == reply.error
  {
    var theme := themes[pick];
    var style := StyleModifier(theme);
    match reply
    case Err(e) => ConceptRun(style, Err(e))
    case Ok(r) => ConceptRun(style, Ok(GeneratedPrompt(r.imagePrompt, theme, r.title, r.description)))
  }

  // ===========================================================================
  // Image generation (`generateImage`)
  // ===========================================================================

  /** Raw image bytes. */
  type Bytes = seq<bv8>

  /** What one image attempt came back with. */
  datatype ImageResponse =
    | ApiFailure(error: Error)                           // the images API threw
    | Generated(url: Option<Str>, download: Result<Bytes>)   // `data[0]?.url`, then the download of it

  const NoImageUrl: Error := Error(Lit("No image URL returned from DALL-E"))
  const AllRetriesFailed: Error := Error(Lit("Image generation failed after all retries"))
  const DefaultImageRetries: int := 2
  const ImageOperation: Str := Lit("Image generation")

  /** One attempt of the loop body: a response without a URL is a failure like any thrown error. */
  function ImageAttempt(response: ImageResponse): (r: Result<Bytes>)
    ensures response.Generated? && !Truthy(response.url) ==> r == Err(NoImageUrl)
    ensures response.ApiFailure? ==> r == Err(response.error)
    ensures r.Ok? ==> response.Generated? && Truthy(response.url) && response.download == r
  {
    match response
    case ApiFailure(e) => Err(e)
    case Generated(url, download) => if !Truthy(url) then Err(NoImageUrl) else download
  }

  function ImageOutcomes(responses: seq<ImageResponse>): (rs: seq<Result<Bytes>>)
    ensures |rs| == |responses|
    ensures forall i :: 0 <= i < |responses| ==> rs[i] == ImageAttempt(responses[i])
  {
    seq(|responses|, i requires 0 <= i < |responses| => ImageAttempt(responses[i]))
  }

  /**
   The `for` loop of `generateImage` entered with counter `attempt`: it runs
   while `attempt <= retries + 1`, sleeps 5 s after a failed attempt only while
   `attempt <= retries`, and rethrows the error of the final attempt.
   */
  function ImageLoop(responses: seq<ImageResponse>, retries: int, attempt: nat): (run: IpfsUploader.RetryRun<Bytes>)
    requires 1 <= attempt
    requires retries + 1 <= |responses|
    decreases retries + 1 - attempt
  {
    if attempt > retries + 1 then IpfsUploader.RetryRun(Err(AllRetriesFailed), 0, 0)
    else
      match ImageAttempt(responses[attempt - 1])
      case Ok(bytes) => IpfsUploader.RetryRun(Ok(bytes), 1, 0)
      case Err(e) =>
        if attempt <= retries then
          var rest := ImageLoop(responses, retries, attempt + 1);
          IpfsUploader.RetryRun(rest.result, rest.calls + 1, rest.sleeps + 1)
        else IpfsUploader.RetryRun(Err(e), 1, 0)
  }

  /**
   `generateImage(prompt, retries)`: with `retries >= 0` it behaves exactly as the
   generic retry executor with `retries + 1` attempts; with `retries < 0` it
   makes no attempt and throws the "after all retries" error.
   */
  function GenerateImage(responses: seq<ImageResponse>, retries: int): (run: IpfsUploader.RetryRun<Bytes>)
    requires retries + 1 <= |responses|
    ensures retries < 0 ==> run == IpfsUploader.RetryRun(Err(AllRetriesFailed), 0, 0)
    ensures retries >= 0 ==> run == IpfsUploader.WithRetry(ImageOutcomes(responses), retries + 1, ImageOperation)
  {
    if retries < 0 then ImageLoop(responses, retries, 1)
    else
      ImageLoopIsRetry(responses, retries, 1, ImageOperation);
      ImageLoop(responses, retries, 1)
  }

  /** Attempt for attempt, the image loop is the generic retry loop with one attempt more than `retries`. */
  lemma {:induction false} ImageLoopIsRetry(responses: seq<ImageResponse>, retries: int, attempt: nat, operation: Str)
    requires 1 <= attempt <= retries + 1 <= |responses|
    ensures ImageLoop(responses, retries, attempt)
            == IpfsUploader.RetryLoop(ImageOutcomes(responses), retries + 1, operation, attempt)
    decreases retries + 1 - attempt
  {
    var outcomes := ImageOutcomes(responses);
    assert outcomes[attempt - 1] == ImageAttempt(responses[attempt - 1]);
    if outcomes[attempt - 1].Err? && attempt <= retries {
      ImageLoopIsRetry(responses, retries, attempt + 1, operation);
    }
  }

  /** With the default of two retries: at most three attempts and the first success is returned. */
  lemma DefaultImageAttempts(responses: seq<ImageResponse>)
    requires 3 <= |responses|
    ensures var run := GenerateImage(responses, DefaultImageRetries);
            && 1 <= run.calls <= 3
            && run.sleeps == run.calls - 1
            && (run.result.Ok? ==> run.result == ImageAttempt(responses[run.calls - 1])
                                   && forall j :: 0 <= j < run.calls - 1 ==> ImageAttempt(responses[j]).Err?)
            && (run.result.Err? ==> run.calls == 3 && run.result == ImageAttempt(responses[2]))
  {
    IpfsUploader.RetryStopsAtFirstSuccess(ImageOutcomes(responses), 3, ImageOperation);
  }

  // ===========================================================================
  // Announcement text (`generateOracleMessage`)
  // ===========================================================================

  const OracleFallback: Str := Lit("✨ A new vision emerges from the digital void...")

  /** `generateOracleMessage`: the model's text, or the fixed line when it came back null or empty. */
  function OracleMessage(content: Result<Option<Str>>): (r: Result<Str>)
    ensures r.Ok? <==> content.Ok?
    ensures r.Err? ==> r.error == content.error
    ensures content.Ok? && Truthy(content.value) ==> r.value == content.value.value
    ensures content.Ok? && !Truthy(content.value) ==> r.value == OracleFallback
    ensures r.Ok? ==> |r.value| > 0
  {
    match content
    case Err(e) => Err(e)
    case Ok(text) => if Truthy(text) then Ok(text.value) else Ok(OracleFallback)
  }
}
