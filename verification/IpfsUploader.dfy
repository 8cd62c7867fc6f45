/**
 Pinning artworks to IPFS through Pinata (src/services/ipfsUploader.ts): the
 bounded retry executor every upload runs under, the two upload calls and the
 `ipfs://` URIs they produce, the NFT metadata document, and the rewriting of
 `ipfs://` URIs to the Pinata HTTP gateway.

 The network is not modelled: each call of the uploaded closure is one element
 of an outcome sequence supplied by the caller, so "the k-th attempt" is
 `outcomes[k - 1]`.
 */
module IpfsUploader {
  import opened JsText
  import opened Results

  // ===========================================================================
  // Retry executor (`withRetry`)
  // ===========================================================================

  /** What one `withRetry` run did: its result, how often it called `fn`, how often it slept. */
  datatype RetryRun<+T> = RetryRun(result: Result<T>, calls: nat, sleeps: nat)

  /** Attempt `k` (0-based) is the first successful one at or after `from`. */
  ghost predicate FirstOkFrom<T>(outcomes: seq<Result<T>>, from: nat, k: nat)
    requires k < |outcomes|
  {
    from <= k && outcomes[k].Ok? && forall j :: from <= j < k ==> outcomes[j].Err?
  }

  /** Every attempt in [from, to) failed. */
  ghost predicate AllFailed<T>(outcomes: seq<Result<T>>, from: nat, to: nat)
    requires to <= |outcomes|
  {
    forall j :: from <= j < to ==> outcomes[j].Err?
  }

  /** The error thrown after the loop when it ran no attempt at all. */
  function FailedAfterError(operation: Str, maxRetries: int): Error
  {
    Error(operation + Lit(" failed after ") + IntToDecimal(maxRetries) + Lit(" attempts"))
  }

  /**
   The `for` loop of `withRetry` entered with counter `attempt`: call `fn`;
   return its value; on failure sleep and go on while `attempt < maxRetries`,
   otherwise rethrow. Past `maxRetries` the loop exits to the final throw.
   */
  function RetryLoop<T>(outcomes: seq<Result<T>>, maxRetries: int, operation: Str, attempt: nat): (run: RetryRun<T>)
    requires 1 <= attempt
    requires maxRetries <= |outcomes|
    ensures maxRetries < attempt ==> run == RetryRun(Err(FailedAfterError(operation, maxRetries)), 0, 0)
    ensures attempt <= maxRetries ==> 1 <= run.calls <= maxRetries - attempt + 1 && run.sleeps == run.calls - 1
    decreases maxRetries - attempt
  {
    if attempt > maxRetries then RetryRun(Err(FailedAfterError(operation, maxRetries)), 0, 0)
    else
      match outcomes[attempt - 1]
      case Ok(v) => RetryRun(Ok(v), 1, 0)
      case Err(e) =>
        if attempt < maxRetries then
          var rest := RetryLoop(outcomes, maxRetries, operation, attempt + 1);
          RetryRun(rest.result, rest.calls + 1, rest.sleeps + 1)
        else RetryRun(Err(e), 1, 0)
  }

  /**
   From any attempt on, the first success is returned after exactly the calls up
   to it; when all remaining attempts fail, the last error is rethrown.
   */
  lemma {:induction false} RetryLoopOutcome<T>(outcomes: seq<Result<T>>, maxRetries: int, operation: Str, attempt: nat)
    requires 1 <= attempt
    requires maxRetries <= |outcomes|
    ensures forall k :: attempt - 1 <= k < maxRetries && FirstOkFrom(outcomes, attempt - 1, k) ==>
              RetryLoop(outcomes, maxRetries, operation, attempt)
              == RetryRun(Ok(outcomes[k].value), k - attempt + 2, k - attempt + 1)
    ensures attempt <= maxRetries && AllFailed(outcomes, attempt - 1, maxRetries) ==>
              RetryLoop(outcomes, maxRetries, operation, attempt)
              == RetryRun(outcomes[maxRetries - 1], maxRetries - attempt + 1, maxRetries - attempt)
    decreases maxRetries - attempt
  {
    if attempt <= maxRetries && outcomes[attempt - 1].Err? && attempt < maxRetries {
      RetryLoopOutcome(outcomes, maxRetries, operation, attempt + 1);
    }
  }

  /**
   `withRetry(fn, maxRetries, delayMs, operation)`: at most `maxRetries` calls; the
   first success is returned at once; when every call fails the last error is
   rethrown unchanged; a sleep of `delayMs` follows every failed call but the last.
   */
  function WithRetry<T>(outcomes: seq<Result<T>>, maxRetries: int, operation: Str): (run: RetryRun<T>)
    requires maxRetries <= |outcomes|
    ensures maxRetries <= 0 ==> run == RetryRun(Err(FailedAfterError(operation, maxRetries)), 0, 0)
    ensures forall k :: 0 <= k < maxRetries && FirstOkFrom(outcomes, 0, k) ==>
              run == RetryRun(Ok(outcomes[k].value), k + 1, k)
    ensures 1 <= maxRetries && AllFailed(outcomes, 0, maxRetries) ==>
              run == RetryRun(outcomes[maxRetries - 1], maxRetries, maxRetries - 1)
  {
    RetryLoopOutcome(outcomes, maxRetries, operation, 1);
    RetryLoop(outcomes, maxRetries, operation, 1)
  }

  /** The first success is returned and nothing after it is called. */
  lemma RetryStopsAtFirstSuccess<T>(outcomes: seq<Result<T>>, maxRetries: int, operation: Str)
    requires maxRetries <= |outcomes|
    ensures var run := WithRetry(outcomes, maxRetries, operation);
            run.calls <= (if maxRetries < 0 then 0 else maxRetries)
            && (run.calls >= 1 ==> run.sleeps == run.calls - 1)
            && (run.calls == 0 <==> maxRetries <= 0)
            && (run.result.Ok? ==> run.calls >= 1 && outcomes[run.calls - 1] == run.result
                                   && AllFailed(outcomes, 0, run.calls - 1))
            && (run.result.Err? && run.calls >= 1 ==> run.calls == maxRetries && outcomes[run.calls - 1] == run.result)
  {
    if maxRetries >= 1 {
      FirstOkOrAllFailed(outcomes, maxRetries);
    }
  }

  /** Within the first `n` attempts, either some attempt is the first success or all fail. */
  lemma {:induction false} FirstOkOrAllFailed<T>(outcomes: seq<Result<T>>, n: nat)
    requires n <= |outcomes|
    ensures AllFailed(outcomes, 0, n) || exists k :: 0 <= k < n && FirstOkFrom(outcomes, 0, k)
  {
    if n > 0 {
      FirstOkOrAllFailed(outcomes, n - 1);
      if AllFailed(outcomes, 0, n - 1) && outcomes[n - 1].Ok? {
        assert FirstOkFrom(outcomes, 0, n - 1);
      }
    }
  }

  // ===========================================================================
  // Uploads
  // ===========================================================================

  const IpfsScheme: Str := Lit("ipfs://")
  const PinataGateway: Str := Lit("https://gateway.pinata.cloud/ipfs/")

  /** What one attempt of a Pinata upload came back with. */
  datatype PinAttempt =
    | Pinned(ipfsHash: Str)     // HTTP ok; the response's `IpfsHash`
    | Rejected(body: Str)       // HTTP not ok; the response body
    | Failed(error: Error)      // the request threw (network failure, 2-minute or 1-minute abort)

  /** The value or error of one attempt of the uploaded closure. */
  function PinOutcome(a: PinAttempt, failurePrefix: Str): (r: Result<Str>)
    ensures a.Pinned? <==> r.Ok?
    ensures a.Pinned? ==> r.value == IpfsScheme + a.ipfsHash
    ensures a.Rejected? ==> r.error.message == failurePrefix + Substring(a.body, 0, 200)
  {
    match a
    case Pinned(h) => Ok(IpfsScheme + h)
    case Rejected(body) => Err(Error(failurePrefix + Substring(body, 0, 200)))
    case Failed(e) => Err(e)
  }

  function PinOutcomes(attempts: seq<PinAttempt>, failurePrefix: Str): (rs: seq<Result<Str>>)
    ensures |rs| == |attempts|
    ensures forall i :: 0 <= i < |attempts| ==> rs[i] == PinOutcome(attempts[i], failurePrefix)
  {
    seq(|attempts|, i requires 0 <= i < |attempts| => PinOutcome(attempts[i], failurePrefix))
  }

  const UploadAttempts: int := 3
  const ImageUploadLabel: Str := Lit("Pinata image upload")
  const MetadataUploadLabel: Str := Lit("Pinata metadata upload")
  const ImageFailurePrefix: Str := Lit("Pinata upload failed: ")
  const MetadataFailurePrefix: Str := Lit("Pinata metadata upload failed: ")

  /** A successful upload returns "ipfs://" followed by the hash of the first attempt that pinned. */
  ghost predicate IsFirstPinnedUri(attempts: seq<PinAttempt>, uri: Str)
  {
    exists k :: 0 <= k < UploadAttempts && k < |attempts| && attempts[k].Pinned?
                && (forall j :: 0 <= j < k ==> !attempts[j].Pinned?)
                && uri == IpfsScheme + attempts[k].ipfsHash
  }

  /** `uploadImageToIPFS`: up to three attempts, 10 s apart. */
  function UploadImage(attempts: seq<PinAttempt>): (run: RetryRun<Str>)
    requires |attempts| >= UploadAttempts
    ensures 1 <= run.calls <= UploadAttempts
    ensures run.result.Ok? ==> IsFirstPinnedUri(attempts, run.result.value)
    ensures run.result.Err? ==> run.calls == UploadAttempts
                                && forall j :: 0 <= j < UploadAttempts ==> !attempts[j].Pinned?
  {
    UploadRun(attempts, ImageFailurePrefix, ImageUploadLabel)
  }

  /** `uploadMetadataToIPFS`: up to three attempts, 5 s apart. */
  function UploadMetadata(attempts: seq<PinAttempt>): (run: RetryRun<Str>)
    requires |attempts| >= UploadAttempts
    ensures 1 <= run.calls <= UploadAttempts
    ensures run.result.Ok? ==> IsFirstPinnedUri(attempts, run.result.value)
    ensures run.result.Err? ==> run.calls == UploadAttempts
                                && forall j :: 0 <= j < UploadAttempts ==> !attempts[j].Pinned?
  {
    UploadRun(attempts, MetadataFailurePrefix, MetadataUploadLabel)
  }

  /** An upload closure run under `withRetry` with three attempts. */
  function UploadRun(attempts: seq<PinAttempt>, failurePrefix: Str, operation: Str): (run: RetryRun<Str>)
    requires |attempts| >= UploadAttempts
    ensures 1 <= run.calls <= UploadAttempts
    ensures run.result.Ok? ==> IsFirstPinnedUri(attempts, run.result.value)
    ensures run.result.Err? ==> run.calls == UploadAttempts
                                && forall j :: 0 <= j < UploadAttempts ==> !attempts[j].Pinned?
  {
    var outcomes := PinOutcomes(attempts, failurePrefix);
    var run := WithRetry(outcomes, UploadAttempts, operation);
    RetryStopsAtFirstSuccess(outcomes, UploadAttempts, operation);
    if run.result.Ok? then
      assert IsFirstPinnedUri(attempts, run.result.value) by {
        var k := run.calls - 1;
        assert attempts[k].Pinned?;
        assert forall j :: 0 <= j < k ==> !attempts[j].Pinned? by {
          assert AllFailed(outcomes, 0, k);
        }
      }
      run
    else
      run
  }

  // ===========================================================================
  // NFT metadata
  // ===========================================================================

  /** The value of a metadata attribute: a JSON string or number. */
  datatype AttributeValue = Text(text: Str) | Number(number: int)

  datatype Attribute = Attribute(traitType: Str, value: AttributeValue)

  /** The `NFTMetadata` JSON document pinned for a token. */
  datatype NftMetadata = NftMetadata(
    name: Str,
    description: Str,
    image: Str,
    externalUrl: Str,
    attributes: seq<Attribute>)

  const DescriptionSuffix: Str :=
    Lit("\n\n") + CrystalBall + Lit(" Created autonomously by PixelOracle - an AI artist living on Base.")
  const ExternalUrl: Str := Lit("https://pixeloracle.art")
  const TraitOrder: seq<Str> := [Lit("Theme"), Lit("Artist"), Lit("Generation"), Lit("Chain"), Lit("Created")]

  /** `pixeloracle-{tokenId}.png`. */
  function ImageFileName(tokenId: int): Str
  {
    Lit("pixeloracle-") + IntToDecimal(tokenId) + Lit(".png")
  }

  /** `pixeloracle-metadata-{tokenId}.json`. */
  function MetadataFileName(tokenId: int): Str
  {
    Lit("pixeloracle-metadata-") + IntToDecimal(tokenId) + Lit(".json")
  }

  /**
   The metadata document: the image is the URI the image upload returned, and the
   attributes are Theme, Artist, Generation, Chain, Created in that order.
   `createdDate` is the `YYYY-MM-DD` part of the clock's ISO timestamp.
   */
  function BuildMetadata(title: Str, description: Str, theme: Str, tokenId: int, imageUri: Str, createdDate: Str)
    : (m: NftMetadata)
    ensures m.name == title && m.image == imageUri
    ensures m.description == description + DescriptionSuffix
    ensures |m.attributes| == |TraitOrder|
    ensures forall i :: 0 <= i < |TraitOrder| ==> m.attributes[i].traitType == TraitOrder[i]
    ensures m.attributes[0].value == Text(theme)
    ensures m.attributes[2].value == Number(tokenId)
    ensures m.attributes[4].value == Text(createdDate)
  {
    NftMetadata(
      title,
      description + DescriptionSuffix,
      imageUri,
      ExternalUrl,
      [ Attribute(Lit("Theme"), Text(theme)),
        Attribute(Lit("Artist"), Text(Lit("PixelOracle AI"))),
        Attribute(Lit("Generation"), Number(tokenId)),
        Attribute(Lit("Chain"), Text(Lit("Base"))),
        Attribute(Lit("Created"), Text(createdDate)) ])
  }

  /** One call of an upload function, in the order they were made. */
  datatype Upload =
    | ImageUpload(fileName: Str)
    | MetadataUpload(fileName: Str, metadata: NftMetadata)

  datatype Uris = Uris(metadataUri: Str, imageUri: Str)

  /** `createAndUploadNFTMetadata`: what it returned or threw, and the uploads it made. */
  datatype MetadataRun = MetadataRun(result: Result<Uris>, uploads: seq<Upload>)

  /**
   The image is uploaded first; only when that succeeds is the metadata, which
   points at the returned image URI, built and uploaded. An upload error
   propagates unchanged.
   */
  function CreateAndUploadMetadata(
    title: Str, description: Str, theme: Str, tokenId: int, createdDate: Str,
    imageAttempts: seq<PinAttempt>, metadataAttempts: seq<PinAttempt>): (run: MetadataRun)
    requires |imageAttempts| >= UploadAttempts && |metadataAttempts| >= UploadAttempts
    ensures 1 <= |run.uploads| <= 2
    ensures run.uploads[0] == ImageUpload(ImageFileName(tokenId))
    ensures UploadImage(imageAttempts).result.Err? ==>
              run.uploads == [ImageUpload(ImageFileName(tokenId))]
              && run.result == Err(UploadImage(imageAttempts).result.error)
    ensures UploadImage(imageAttempts).result.Ok? ==>
              var imageUri := UploadImage(imageAttempts).result.value;
              && |run.uploads| == 2
              && run.uploads[1] == MetadataUpload(MetadataFileName(tokenId),
                                                  BuildMetadata(title, description, theme, tokenId, imageUri, createdDate))
              && run.result.Ok? == UploadMetadata(metadataAttempts).result.Ok?
              && (run.result.Ok? ==> run.result.value == Uris(UploadMetadata(metadataAttempts).result.value, imageUri))
    ensures run.result.Ok? ==> IsFirstPinnedUri(imageAttempts, run.result.value.imageUri)
                               && IsFirstPinnedUri(metadataAttempts, run.result.value.metadataUri)
  {
    var image := UploadImage(imageAttempts);
    var first := ImageUpload(ImageFileName(tokenId));
    match image.result
    case Err(e) => MetadataRun(Err(e), [first])
    case Ok(imageUri) =>
      var metadata := BuildMetadata(title, description, theme, tokenId, imageUri, createdDate);
      var meta := UploadMetadata(metadataAttempts);
      var uploads := [first, MetadataUpload(MetadataFileName(tokenId), metadata)];
      match meta.result
      case Err(e) => MetadataRun(Err(e), uploads)
      case Ok(metadataUri) => MetadataRun(Ok(Uris(metadataUri, imageUri)), uploads)
  }

  // ===========================================================================
  // Gateway URLs (`ipfsToHttp`)
  // ===========================================================================

  /** `ipfsToHttp`: an `ipfs://` URI becomes a Pinata gateway URL; anything else is kept. */
  function IpfsToHttp(uri: Str): (r: Str)
    ensures StartsWith(uri, IpfsScheme) ==> r == PinataGateway + uri[|IpfsScheme|..]
    ensures !StartsWith(uri, IpfsScheme) ==> r == uri
  {
    if StartsWith(uri, IpfsScheme) then
      ReplacePrefix(uri, IpfsScheme, PinataGateway);
      ReplaceFirst(uri, IpfsScheme, PinataGateway)
    else uri
  }

  /** The URI an upload returns maps to the gateway URL of its hash. */
  lemma IpfsToHttpOfUpload(ipfsHash: Str)
    ensures IpfsToHttp(IpfsScheme + ipfsHash) == PinataGateway + ipfsHash
  {
    assert (IpfsScheme + ipfsHash)[..|IpfsScheme|] == IpfsScheme;
    assert (IpfsScheme + ipfsHash)[|IpfsScheme|..] == ipfsHash;
  }

  /** A gateway URL is not an `ipfs://` URI. */
  lemma GatewayIsNotIpfs(rest: Str)
    ensures !StartsWith(PinataGateway + rest, IpfsScheme)
  {
    assert (PinataGateway + rest)[0] == PinataGateway[0];
  }

  /** Rewriting is idempotent. */
  lemma IpfsToHttpIdempotent(uri: Str)
    ensures IpfsToHttp(IpfsToHttp(uri)) == IpfsToHttp(uri)
  {
    if StartsWith(uri, IpfsScheme) {
      GatewayIsNotIpfs(uri[|IpfsScheme|..]);
    }
  }
}
