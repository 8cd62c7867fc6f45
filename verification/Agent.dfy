/**
 The autonomous artist (src/agent.ts): one creation cycle runs a fixed
 sequence of service calls behind a balance gate, and the loop repeats it on
 a timer.

 Every service outcome is a field of `Services`; the cycle is a pure function
 of the settings and those outcomes. It reports the calls it made, in order,
 each with the error it threw if it threw one, and how the cycle ended.
 */
module Agent {
  import opened JsText
  import opened Results
  import Config
  import ArtGenerator
  import IpfsUploader
  import Blockchain
  import Social

  // ===========================================================================
  // One creation cycle (`createArtworkCycle`)
  // ===========================================================================

  /** What each outside call of one cycle comes back with; random picks are indices. */
  datatype Services = Services(
    balance: Result<bool>,                                   // `checkBalance`
    themePick: nat,                                          // Math.random theme index
    conceptReply: Result<ArtGenerator.ConceptReply>,         // chat completion of the concept
    imageResponses: seq<ArtGenerator.ImageResponse>,         // one per image attempt
    totalMinted: Result<nat>,                                // `totalSupply` read by the agent
    createdDate: Str,                                        // the clock, as ISO date
    imageUploads: seq<IpfsUploader.PinAttempt>,              // one per Pinata image attempt
    metadataUploads: seq<IpfsUploader.PinAttempt>,           // one per Pinata metadata attempt
    mintSupply: Result<nat>,                                 // `totalSupply` read inside `mintArtwork`
    submitted: Result<Str>,                                  // the mint transaction hash
    receipt: Result<Blockchain.ReceiptStatus>,               // the receipt wait
    oracleContent: Result<Option<Str>>,                      // chat completion of the announcement
    taglinePick: nat,                                        // Math.random tagline index
    castReply: Social.CastReply,                             // Neynar
    tweetReply: Result<Str>)                                 // Twitter

  /** Enough outcomes for every attempt the cycle may make, and random indices in range. */
  predicate Supplied(settings: Config.Settings, s: Services)
  {
    && s.themePick < |settings.artThemes|
    && |s.imageResponses| >= ArtGenerator.DefaultImageRetries + 1
    && |s.imageUploads| >= IpfsUploader.UploadAttempts
    && |s.metadataUploads| >= IpfsUploader.UploadAttempts
    && s.taglinePick < Social.TaglineCount
  }

  /** The steps of a cycle, with the arguments each was given. */
  datatype Call =
    | CheckBalance
    | GenerateConcept(style: Str)
    | GenerateImage(prompt: Str)
    | ReadTotalMinted
    | UploadToIpfs(image: ArtGenerator.Bytes, title: Str, description: Str, theme: Str, tokenId: nat)
    | MintArtwork(metadataUri: Str, prompt: Str, theme: Str)
    | GenerateOracleMessage(theme: Str, title: Str)
    | FormatPost(txHash: Str, tokenId: nat)
    | PostToAllPlatforms(text: Str, imageUri: Str, image: ArtGenerator.Bytes)

  /** The position of each step in the fixed order of a cycle. */
  function Stage(c: Call): (k: nat)
    ensures k < StageCount
  {
    match c
    case CheckBalance => 0
    case GenerateConcept(_) => 1
    case GenerateImage(_) => 2
    case ReadTotalMinted => 3
    case UploadToIpfs(_, _, _, _, _) => 4
    case MintArtwork(_, _, _) => 5
    case GenerateOracleMessage(_, _) => 6
    case FormatPost(_, _) => 7
    case PostToAllPlatforms(_, _, _) => 8
  }

  const StageCount: nat := 9

  /** A step taken, and the error it threw if it threw one. */
  datatype Step = Step(call: Call, failure: Option<Error>)

  /** What the completion banner reports. */
  datatype Summary = Summary(
    title: Str, tokenId: nat, baseScanUrl: Str, openSeaUrl: Str, gatewayUrl: Str,
    farcasterPosted: bool, twitterPosted: bool)

  /** How a cycle ended; none of them propagates to the caller. */
  datatype CycleEnd =
    | Paused                      // low balance: nothing else is attempted
    | Failed(error: Error)        // caught and logged
    | Completed(summary: Summary)

  datatype CycleRun = CycleRun(steps: seq<Step>, end: CycleEnd)

  /** The steps are the first stages of a cycle, in order. */
  ghost predicate Ordered(steps: seq<Step>)
  {
    forall i :: 0 <= i < |steps| ==> Stage(steps[i].call) == i
  }

  /** None of the steps threw. */
  ghost predicate Clean(steps: seq<Step>)
  {
    forall i :: 0 <= i < |steps| ==> steps[i].failure.None?
  }

  /**
   The shape of every cycle: a prefix of the fixed stage order in which only
   the last step may have thrown; the cycle failed exactly when it did, with its
   error, and it completed exactly when every stage ran without throwing.
   */
  ghost predicate WellShaped(run: CycleRun)
  {
    && 1 <= |run.steps| <= StageCount
    && Ordered(run.steps)
    && Clean(run.steps[..|run.steps| - 1])
    && (run.end.Failed? <==> run.steps[|run.steps| - 1].failure.Some?)
    && (run.end.Failed? ==> run.end.error == run.steps[|run.steps| - 1].failure.value)
    && (run.end.Completed? <==> |run.steps| == StageCount && run.steps[StageCount - 1].failure.None?)
  }

  /** The trace after `call` returned normally. */
  function Done(trace: seq<Step>, call: Call): (t: seq<Step>)
    requires Ordered(trace) && Clean(trace) && Stage(call) == |trace|
    ensures |t| == |trace| + 1 && t[..|trace|] == trace && t[|trace|] == Step(call, None)
    ensures Ordered(t) && Clean(t)
  {
    trace + [Step(call, None)]
  }

  /** The cycle after `call` threw `e`: the step is recorded and the rest is skipped. */
  function Abort(done: seq<Step>, call: Call, e: Error): (run: CycleRun)
    requires Ordered(done) && Clean(done) && Stage(call) == |done|
    ensures run.steps == done + [Step(call, Some(e))]
    ensures run.end == Failed(e)
    ensures WellShaped(run)
  {
    var run := CycleRun(done + [Step(call, Some(e))], Failed(e));
    assert run.steps[..|done|] == done;
    run
  }

  /** The cycle after its last step, `call`, returned normally. */
  function Finish(done: seq<Step>, call: Call, summary: Summary): (run: CycleRun)
    requires |done| == StageCount - 1 && Ordered(done) && Clean(done) && Stage(call) == |done|
    ensures run.steps == done + [Step(call, None)]
    ensures run.end == Completed(summary)
    ensures WellShaped(run)
  {
    var run := CycleRun(done + [Step(call, None)], Completed(summary));
    assert run.steps[..|done|] == done;
    run
  }

  /** Every outside call from the mint onward succeeds. */
  predicate MintOnwardSucceeds(settings: Config.Settings, s: Services)
  {
    && |settings.contractAddress| > 0
    && s.mintSupply.Ok? && s.submitted.Ok? && s.receipt == Ok(Blockchain.Success)
    && s.oracleContent.Ok?
  }

  /** Every outside call a cycle depends on succeeds, and the balance suffices. */
  predicate AllSucceed(settings: Config.Settings, s: Services)
    requires Supplied(settings, s)
  {
    && s.balance == Ok(true)
    && s.conceptReply.Ok?
    && ArtGenerator.GenerateImage(s.imageResponses, ArtGenerator.DefaultImageRetries).result.Ok?
    && s.totalMinted.Ok?
    && IpfsUploader.UploadImage(s.imageUploads).result.Ok?
    && IpfsUploader.UploadMetadata(s.metadataUploads).result.Ok?
    && MintOnwardSucceeds(settings, s)
  }

  /**
   What a completed cycle reports and posts: the token id and transaction hash
   of the mint, the explorer and OpenSea links built from them, and a post that
   carries the oracle's announcement, the explorer link and the image.
   */
  ghost predicate Reported(settings: Config.Settings, s: Services, run: CycleRun, imageUri: Str, image: ArtGenerator.Bytes)
    requires Supplied(settings, s)
  {
    run.end.Completed? ==>
      && |run.steps| == StageCount
      && ArtGenerator.OracleMessage(s.oracleContent).Ok?
      && s.mintSupply.Ok? && s.submitted.Ok?
      && run.end.summary.tokenId == s.mintSupply.value
      && run.end.summary.baseScanUrl == Blockchain.BaseScanUrl(settings.network, s.submitted.value)
      && Ok(run.end.summary.openSeaUrl)
         == Blockchain.OpenSeaUrl(settings.network, settings.contractAddress, s.mintSupply.value)
      && run.end.summary.gatewayUrl == IpfsUploader.IpfsToHttp(imageUri)
      && run.steps[8].call
         == PostToAllPlatforms(Social.FormatSocialPost(ArtGenerator.OracleMessage(s.oracleContent).value,
                                                       run.end.summary.baseScanUrl,
                                                       run.end.summary.openSeaUrl, s.taglinePick),
                               imageUri, image)
  }

  /**
   The last step: the post, the announcement in the place of the title, goes to
   both networks; whatever they answer, the cycle completes.
   */
  method Post(settings: Config.Settings, s: Services, done: seq<Step>, image: ArtGenerator.Bytes,
              title: Str, uris: IpfsUploader.Uris, message: Str, minted: Blockchain.Minted,
              baseScanUrl: Str, openSeaUrl: Str)
    returns (run: CycleRun)
    requires Supplied(settings, s)
    requires |done| == 8 && Ordered(done) && Clean(done)
    ensures WellShaped(run) && run.end.Completed?
    ensures |done| < |run.steps| && run.steps[..|done|] == done
    ensures run.end.summary == Summary(title, minted.tokenId, baseScanUrl, openSeaUrl,
                                       IpfsUploader.IpfsToHttp(uris.imageUri),
                                       run.end.summary.farcasterPosted, run.end.summary.twitterPosted)
    ensures run.steps[8].call
            == PostToAllPlatforms(Social.FormatSocialPost(message, baseScanUrl, openSeaUrl, s.taglinePick),
                                  uris.imageUri, image)
    ensures var social := Social.PostToAllPlatforms(settings, run.steps[8].call.text, Some(uris.imageUri),
                                                    s.castReply, s.tweetReply);
            && run.end.summary.farcasterPosted == social.farcaster.result.success
            && run.end.summary.twitterPosted == social.twitter.result.success
  {
    var text := Social.FormatSocialPost(message, baseScanUrl, openSeaUrl, s.taglinePick);
    var social := Social.PostToAllPlatforms(settings, text, Some(uris.imageUri), s.castReply, s.tweetReply);
    run := Finish(done, PostToAllPlatforms(text, uris.imageUri, image),
                  Summary(title, minted.tokenId, baseScanUrl, openSeaUrl, IpfsUploader.IpfsToHttp(uris.imageUri),
                          social.farcaster.result.success, social.twitter.result.success));
    assert run.steps[..|done|] == done;
    assert run.steps[8].call == PostToAllPlatforms(text, uris.imageUri, image);
  }

  /** The links, then the posting. */
  method Share(settings: Config.Settings, s: Services, done: seq<Step>, image: ArtGenerator.Bytes,
               title: Str, uris: IpfsUploader.Uris, message: Str, minted: Blockchain.Minted)
    returns (run: CycleRun)
    requires Supplied(settings, s)
    requires |done| == 7 && Ordered(done) && Clean(done)
    requires ArtGenerator.OracleMessage(s.oracleContent) == Ok(message)
    requires s.mintSupply.Ok? && s.submitted.Ok? && minted == Blockchain.Minted(s.mintSupply.value, s.submitted.value)
    ensures WellShaped(run) && !run.end.Paused?
    ensures |done| < |run.steps| && run.steps[..|done|] == done
    ensures run.steps[7].call == FormatPost(minted.txHash, minted.tokenId)
    ensures run.end.Completed? <==> |settings.contractAddress| > 0
    ensures run.end.Completed? ==> run.end.summary.title == title
    ensures Reported(settings, s, run, uris.imageUri, image)
  {
    var formatCall := FormatPost(minted.txHash, minted.tokenId);
    var baseScanUrl := Blockchain.BaseScanUrl(settings.network, minted.txHash);
    var openSeaUrl := Blockchain.OpenSeaUrl(settings.network, settings.contractAddress, minted.tokenId);
    if openSeaUrl.Err? {
      return Abort(done, formatCall, openSeaUrl.error);
    }
    var t8 := Done(done, formatCall);
    run := Post(settings, s, t8, image, title, uris, message, minted, baseScanUrl, openSeaUrl.value);
    assert run.steps[..|done|] == done by { assert run.steps[..|done|] == t8[..|done|]; }
    assert run.steps[7] == t8[7];
  }

  /** The announcement, then the links and the posting. */
  method Announce(settings: Config.Settings, s: Services, done: seq<Step>, image: ArtGenerator.Bytes,
                  title: Str, theme: Str, uris: IpfsUploader.Uris, minted: Blockchain.Minted)
    returns (run: CycleRun)
    requires Supplied(settings, s)
    requires |done| == 6 && Ordered(done) && Clean(done)
    requires s.mintSupply.Ok? && s.submitted.Ok? && minted == Blockchain.Minted(s.mintSupply.value, s.submitted.value)
    ensures WellShaped(run) && !run.end.Paused?
    ensures |done| < |run.steps| && run.steps[..|done|] == done
    ensures run.steps[6].call == GenerateOracleMessage(theme, title)
    ensures run.end.Completed? <==> s.oracleContent.Ok? && |settings.contractAddress| > 0
    ensures Reported(settings, s, run, uris.imageUri, image)
  {
    var oracleCall := GenerateOracleMessage(theme, title);
    var message := ArtGenerator.OracleMessage(s.oracleContent);
    if message.Err? {
      return Abort(done, oracleCall, message.error);
    }
    var t7 := Done(done, oracleCall);
    run := Share(settings, s, t7, image, title, uris, message.value, minted);
    assert run.steps[..|done|] == done by { assert run.steps[..|done|] == t7[..|done|]; }
    assert run.steps[6] == t7[6];
  }

  /** The mint, then the announcement. */
  method MintStage(settings: Config.Settings, s: Services, done: seq<Step>,
                   art: ArtGenerator.GeneratedPrompt, image: ArtGenerator.Bytes, uris: IpfsUploader.Uris)
    returns (run: CycleRun)
    requires Supplied(settings, s)
    requires |done| == 5 && Ordered(done) && Clean(done)
    ensures WellShaped(run) && !run.end.Paused?
    ensures |done| < |run.steps| && run.steps[..|done|] == done
    ensures run.steps[5].call == MintArtwork(uris.metadataUri, art.prompt, art.theme)
    ensures run.end.Completed? <==> MintOnwardSucceeds(settings, s)
    ensures Reported(settings, s, run, uris.imageUri, image)
  {
    var mint := Blockchain.MintArtwork(settings.contractAddress, uris.metadataUri, art.prompt, art.theme,
                                       s.mintSupply, s.submitted, s.receipt);
    var mintCall := MintArtwork(uris.metadataUri, art.prompt, art.theme);
    if mint.result.Err? {
      return Abort(done, mintCall, mint.result.error);
    }
    var t6 := Done(done, mintCall);
    run := Announce(settings, s, t6, image, art.title, art.theme, uris, mint.result.value);
    assert run.steps[..|done|] == done by { assert run.steps[..|done|] == t6[..|done|]; }
    assert run.steps[5] == t6[5];
  }

  /** The upload, then the mint and the announcement. */
  method Publish(settings: Config.Settings, s: Services, done: seq<Step>,
                 art: ArtGenerator.GeneratedPrompt, image: ArtGenerator.Bytes, tokenId: nat)
    returns (run: CycleRun)
    requires Supplied(settings, s)
    requires |done| == 4 && Ordered(done) && Clean(done)
    ensures WellShaped(run) && !run.end.Paused?
    ensures |done| < |run.steps| && run.steps[..|done|] == done
    ensures run.steps[4].call == UploadToIpfs(image, art.title, art.description, art.theme, tokenId)
    ensures run.end.Completed? <==>
              && IpfsUploader.UploadImage(s.imageUploads).result.Ok?
              && IpfsUploader.UploadMetadata(s.metadataUploads).result.Ok?
              && MintOnwardSucceeds(settings, s)
    ensures run.end.Completed? ==>
              && |run.steps| == StageCount && run.steps[8].call.PostToAllPlatforms?
              && IpfsUploader.IsFirstPinnedUri(s.imageUploads, run.steps[8].call.imageUri)
              && Reported(settings, s, run, run.steps[8].call.imageUri, image)
  {
    var upload := IpfsUploader.CreateAndUploadMetadata(art.title, art.description, art.theme, tokenId,
                                                        s.createdDate, s.imageUploads, s.metadataUploads);
    var uploadCall := UploadToIpfs(image, art.title, art.description, art.theme, tokenId);
    if upload.result.Err? {
      return Abort(done, uploadCall, upload.result.error);
    }
    var t5 := Done(done, uploadCall);
    run := MintStage(settings, s, t5, art, image, upload.result.value);
    assert run.steps[..|done|] == done by { assert run.steps[..|done|] == t5[..|done|]; }
    assert run.steps[4] == t5[4];
  }

  /** The token id, then the upload and everything after it. */
  method Count(settings: Config.Settings, s: Services, done: seq<Step>,
               art: ArtGenerator.GeneratedPrompt, image: ArtGenerator.Bytes)
    returns (run: CycleRun)
    requires Supplied(settings, s)
    requires |done| == 3 && Ordered(done) && Clean(done)
    ensures WellShaped(run) && !run.end.Paused?
    ensures |done| < |run.steps| && run.steps[..|done|] == done
    ensures |run.steps| > 4 ==>
              && s.totalMinted.Ok?
              && run.steps[4].call == UploadToIpfs(image, art.title, art.description, art.theme, s.totalMinted.value)
    ensures run.end.Completed? <==>
              && s.totalMinted.Ok?
              && IpfsUploader.UploadImage(s.imageUploads).result.Ok?
              && IpfsUploader.UploadMetadata(s.metadataUploads).result.Ok?
              && MintOnwardSucceeds(settings, s)
    ensures run.end.Completed? ==>
              && |run.steps| == StageCount && run.steps[8].call.PostToAllPlatforms?
              && IpfsUploader.IsFirstPinnedUri(s.imageUploads, run.steps[8].call.imageUri)
              && Reported(settings, s, run, run.steps[8].call.imageUri, image)
  {
    var tokenId := Blockchain.TotalMinted(settings.contractAddress, s.totalMinted);
    if tokenId.Err? {
      return Abort(done, ReadTotalMinted, tokenId.error);
    }
    var t4 := Done(done, ReadTotalMinted);
    run := Publish(settings, s, t4, art, image, tokenId.value);
    assert run.steps[..|done|] == done by { assert run.steps[..|done|] == t4[..|done|]; }
  }

  /** The image, then the token id and everything after it. */
  method Render(settings: Config.Settings, s: Services, done: seq<Step>, art: ArtGenerator.GeneratedPrompt)
    returns (run: CycleRun)
    requires Supplied(settings, s)
    requires |done| == 2 && Ordered(done) && Clean(done)
    ensures WellShaped(run) && !run.end.Paused?
    ensures |done| < |run.steps| && run.steps[..|done|] == done
    ensures run.steps[2].call == GenerateImage(art.prompt)
    ensures |run.steps| > 4 ==>
              && ArtGenerator.GenerateImage(s.imageResponses, ArtGenerator.DefaultImageRetries).result.Ok?
              && s.totalMinted.Ok?
              && run.steps[4].call
                 == UploadToIpfs(ArtGenerator.GenerateImage(s.imageResponses, ArtGenerator.DefaultImageRetries).result.value,
                                 art.title, art.description, art.theme, s.totalMinted.value)
    ensures run.end.Completed? <==>
              && ArtGenerator.GenerateImage(s.imageResponses, ArtGenerator.DefaultImageRetries).result.Ok?
              && s.totalMinted.Ok?
              && IpfsUploader.UploadImage(s.imageUploads).result.Ok?
              && IpfsUploader.UploadMetadata(s.metadataUploads).result.Ok?
              && MintOnwardSucceeds(settings, s)
    ensures run.end.Completed? ==>
              && |run.steps| == StageCount && run.steps[8].call.PostToAllPlatforms?
              && IpfsUploader.IsFirstPinnedUri(s.imageUploads, run.steps[8].call.imageUri)
              && Reported(settings, s, run, run.steps[8].call.imageUri, run.steps[4].call.image)
  {
    var imageCall := GenerateImage(art.prompt);
    var image := ArtGenerator.GenerateImage(s.imageResponses, ArtGenerator.DefaultImageRetries).result;
    if image.Err? {
      return Abort(done, imageCall, image.error);
    }
    var t3 := Done(done, imageCall);
    run := Count(settings, s, t3, art, image.value);
    assert run.steps[..|done|] == done by { assert run.steps[..|done|] == t3[..|done|]; }
    assert run.steps[2] == t3[2];
  }

  /** The concept, then the image and everything after it. */
  method Conceive(settings: Config.Settings, s: Services, done: seq<Step>) returns (run: CycleRun)
    requires Supplied(settings, s)
    requires |done| == 1 && Ordered(done) && Clean(done)
    ensures WellShaped(run) && !run.end.Paused?
    ensures |done| < |run.steps| && run.steps[..|done|] == done
    ensures run.steps[1].call == GenerateConcept(ArtGenerator.StyleModifier(settings.artThemes[s.themePick]))
    ensures |run.steps| > 4 ==>
              && s.conceptReply.Ok?
              && ArtGenerator.GenerateImage(s.imageResponses, ArtGenerator.DefaultImageRetries).result.Ok?
              && s.totalMinted.Ok?
              && run.steps[4].call
                 == UploadToIpfs(ArtGenerator.GenerateImage(s.imageResponses, ArtGenerator.DefaultImageRetries).result.value,
                                 s.conceptReply.value.title, s.conceptReply.value.description,
                                 settings.artThemes[s.themePick], s.totalMinted.value)
    ensures run.end.Completed? <==>
              && s.conceptReply.Ok?
              && ArtGenerator.GenerateImage(s.imageResponses, ArtGenerator.DefaultImageRetries).result.Ok?
              && s.totalMinted.Ok?
              && IpfsUploader.UploadImage(s.imageUploads).result.Ok?
              && IpfsUploader.UploadMetadata(s.metadataUploads).result.Ok?
              && MintOnwardSucceeds(settings, s)
    ensures run.end.Completed? ==>
              && |run.steps| == StageCount && run.steps[8].call.PostToAllPlatforms?
              && IpfsUploader.IsFirstPinnedUri(s.imageUploads, run.steps[8].call.imageUri)
              && Reported(settings, s, run, run.steps[8].call.imageUri, run.steps[4].call.image)
  {
    var concept := ArtGenerator.GenerateArtPrompt(settings.artThemes, s.themePick, s.conceptReply);
    var conceptCall := GenerateConcept(concept.style);
    if concept.result.Err? {
      return Abort(done, conceptCall, concept.result.error);
    }
    var t2 := Done(done, conceptCall);
    run := Render(settings, s, t2, concept.result.value);
    assert run.steps[..|done|] == done by { assert run.steps[..|done|] == t2[..|done|]; }
    assert run.steps[1] == t2[1];
  }

  /**
   `createArtworkCycle`: check the balance, then concept, image, token id,
   upload, mint, announcement, links and posting, in that order. The first step
   that throws ends the cycle, whose error is caught; a low balance pauses it.
   The cycle completes exactly when every outside call it depends on succeeds,
   and fails exactly when one of them throws: what the two social networks
   answer plays no part in either.
   */
  method CreateArtworkCycle(settings: Config.Settings, s: Services) returns (run: CycleRun)
    requires Supplied(settings, s)
    ensures WellShaped(run)
    ensures run.end.Paused? <==> s.balance == Ok(false)
    ensures run.end.Paused? ==> run.steps == [Step(CheckBalance, None)]
    ensures run.end.Completed? <==> AllSucceed(settings, s)
    ensures run.end.Failed? <==> s.balance != Ok(false) && !AllSucceed(settings, s)
    ensures |run.steps| > 4 ==>
              && s.conceptReply.Ok?
              && ArtGenerator.GenerateImage(s.imageResponses, ArtGenerator.DefaultImageRetries).result.Ok?
              && s.totalMinted.Ok?
              && run.steps[4].call
                 == UploadToIpfs(ArtGenerator.GenerateImage(s.imageResponses, ArtGenerator.DefaultImageRetries).result.value,
                                 s.conceptReply.value.title, s.conceptReply.value.description,
                                 settings.artThemes[s.themePick], s.totalMinted.value)
    ensures run.end.Completed? ==>
              && |run.steps| == StageCount && run.steps[8].call.PostToAllPlatforms?
              && IpfsUploader.IsFirstPinnedUri(s.imageUploads, run.steps[8].call.imageUri)
              && Reported(settings, s, run, run.steps[8].call.imageUri, run.steps[4].call.image)
  {
    if s.balance.Err? {
      return Abort([], CheckBalance, s.balance.error);
    }
    if !s.balance.value {
      return CycleRun([Step(CheckBalance, None)], Paused);
    }
    var t1 := Done([], CheckBalance);
    run := Conceive(settings, s, t1);
  }

  // ===========================================================================
  // The autonomous loop (`runAutonomousLoop`)
  // ===========================================================================

  const MsPerMinute: int := 60 * 1000

  /** Node's largest timer delay; a delay outside 1..TimeoutMax ms is replaced by 1 ms. */
  const TimeoutMax: int := 0x7FFF_FFFF

  /** The delay `setInterval` actually uses for `creationIntervalMinutes * 60 * 1000`. */
  function TimerDelay(minutes: int): (d: int)
    ensures 1 <= d <= TimeoutMax
    ensures 1 <= minutes * MsPerMinute <= TimeoutMax ==> d == minutes * MsPerMinute
    ensures !(1 <= minutes * MsPerMinute <= TimeoutMax) ==> d == 1
  {
    var intervalMs := minutes * MsPerMinute;
    if 1 <= intervalMs <= TimeoutMax then intervalMs else 1
  }

  /** Every interval from one minute to 35791 minutes (almost 25 days) is kept as written. */
  lemma IntervalKeptExactly(minutes: int)
    requires 1 <= minutes <= 35791
    ensures TimerDelay(minutes) == minutes * 60000
  {
  }

  /**
   When cycle `k` starts, in ms after the loop started: the first cycle at once;
   the timer is set only after it finished (`firstCycleMs` later), first fires one
   delay after that, and again one delay after each firing, whether or not the
   previous cycle has ended. The closed form counts the delays since the timer was set.
   */
  function CycleStart(minutes: int, firstCycleMs: nat, k: nat): (t: nat)
    ensures k == 0 ==> t == 0
    ensures k > 0 ==> t == firstCycleMs + k * TimerDelay(minutes)
    decreases k
  {
    if k == 0 then 0
    else if k == 1 then firstCycleMs + TimerDelay(minutes)
    else CycleStart(minutes, firstCycleMs, k - 1) + TimerDelay(minutes)
  }

  /** How many cycles have started by time `t`. */
  function CyclesStarted(minutes: int, firstCycleMs: nat, t: nat): (n: nat)
    ensures n >= 1
  {
    var delay := TimerDelay(minutes);
    if t < firstCycleMs + delay then 1 else 1 + (t - firstCycleMs) / delay
  }

  /** Cycle `k` has started by time `t` exactly when `k` is below the count of started cycles. */
  lemma CyclesStartedCounts(minutes: int, firstCycleMs: nat, t: nat, k: nat)
    ensures CycleStart(minutes, firstCycleMs, k) <= t <==> k < CyclesStarted(minutes, firstCycleMs, t)
  {
    var delay := TimerDelay(minutes);
    if k > 0 && t >= firstCycleMs + delay {
      var q := (t - firstCycleMs) / delay;
      assert t - firstCycleMs == q * delay + (t - firstCycleMs) % delay;
      if k <= q {
        assert k * delay <= q * delay by { MulMonotone(k, q, delay); }
      } else {
        assert (q + 1) * delay <= k * delay by { MulMonotone(q + 1, k, delay); }
      }
    }
    if k > 0 && t < firstCycleMs + delay {
      assert 1 * delay <= k * delay by { MulMonotone(1, k, delay); }
    }
  }

  lemma MulMonotone(a: nat, b: nat, c: nat)
    requires a <= b
    ensures a * c <= b * c
  {
  }
}
