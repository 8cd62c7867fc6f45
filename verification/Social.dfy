/**
 Broadcasting a new artwork (src/services/social.ts): the cast on Farcaster
 through the Neynar API, the text-only tweet, the tweet text that links back to
 the cast within 280 code units, and the announcement post itself.

 Each HTTP or SDK call is an outcome parameter; the random tagline is an index.
 */
module Social {
  import opened JsText
  import opened Results
  import Config
  import IpfsUploader

  /** U+FE0F, which asks for the emoji presentation of the character before it. */
  const EmojiPresentation: Str := [0xFE0F]

  /** The `{ success, hash?/tweetId?, error? }` object both posting functions return. */
  datatype PostResult = PostResult(success: bool, id: Option<Str>, error: Option<Str>)

  const NotConfigured: Str := Lit("Not configured")

  // ===========================================================================
  // Farcaster (`postToFarcaster`)
  // ===========================================================================

  /** The body POSTed to the Neynar cast endpoint; `embeds` is omitted when empty. */
  datatype CastRequest = CastRequest(signerUuid: Str, text: Str, embeds: seq<Str>)

  /** What the cast request came back with. */
  datatype CastReply =
    | CastThrown(error: Error)            // fetch or JSON parsing threw
    | CastRejected(body: Str)             // HTTP status outside 2xx, with its body text
    | CastAccepted(castHash: Option<Str>) // `data.cast?.hash`

  datatype FarcasterRun = FarcasterRun(request: Option<CastRequest>, result: PostResult)

  const NeynarErrorPrefix: Str := Lit("Neynar API error: ")

  predicate FarcasterConfigured(settings: Config.Settings)
  {
    NonEmpty(settings.neynarApiKey) && NonEmpty(settings.farcasterSignerUuid)
  }

  /**
   `postToFarcaster(text, imageUrl)`: nothing is sent without both Neynar
   credentials; a truthy image URL is embedded as its gateway link; every failure
   is caught and reported in the result.
   */
  function PostToFarcaster(settings: Config.Settings, text: Str, imageUrl: Option<Str>, reply: CastReply): (run: FarcasterRun)
    ensures run.request.None? <==> !FarcasterConfigured(settings)
    ensures run.request.None? ==> run.result == PostResult(false, None, Some(NotConfigured))
    ensures run.request.Some? ==> run.request.value.signerUuid == settings.farcasterSignerUuid
                                  && run.request.value.text == text
    ensures run.request.Some? ==> |run.request.value.embeds| <= 1
                                  && (|run.request.value.embeds| == 1 <==> Truthy(imageUrl))
    ensures run.request.Some? && Truthy(imageUrl) ==> run.request.value.embeds[0] == IpfsUploader.IpfsToHttp(imageUrl.value)
    ensures run.result.success <==> FarcasterConfigured(settings) && reply.CastAccepted?
    ensures run.result.success ==> run.result.id == reply.castHash && run.result.error.None?
    ensures FarcasterConfigured(settings) && reply.CastRejected? ==>
              run.result == PostResult(false, None, Some(NeynarErrorPrefix + reply.body))
    ensures FarcasterConfigured(settings) && reply.CastThrown? ==>
              run.result == PostResult(false, None, Some(reply.error.message))
  {
    if !FarcasterConfigured(settings) then FarcasterRun(None, PostResult(false, None, Some(NotConfigured)))
    else
      var embeds := if Truthy(imageUrl) then [IpfsUploader.IpfsToHttp(imageUrl.value)] else [];
      var request := CastRequest(settings.farcasterSignerUuid, text, embeds);
      var result :=
        match reply
        case CastThrown(e) => PostResult(false, None, Some(e.message))
        case CastRejected(body) => PostResult(false, None, Some(NeynarErrorPrefix + body))
        case CastAccepted(hash) => PostResult(true, hash, None);
      FarcasterRun(Some(request), result)
  }

  // ===========================================================================
  // Twitter (`postToTwitter`)
  // ===========================================================================

  /** The text of the tweet sent, if one was, and the result reported. */
  datatype TwitterRun = TwitterRun(sent: Option<Str>, result: PostResult)

  predicate TwitterConfigured(settings: Config.Settings)
  {
    NonEmpty(settings.twitterApiKey) && NonEmpty(settings.twitterApiSecret)
    && NonEmpty(settings.twitterAccessToken) && NonEmpty(settings.twitterAccessSecret)
  }

  /**
   `postToTwitter(text, imageBuffer)`: all four credentials are needed; the tweet
   is text only (the image buffer is never uploaded); `reply` is the id of the
   created tweet or the error the client threw.
   */
  function PostToTwitter(settings: Config.Settings, text: Str, reply: Result<Str>): (run: TwitterRun)
    ensures run.sent.None? <==> !TwitterConfigured(settings)
    ensures run.sent.None? ==> run.result == PostResult(false, None, Some(NotConfigured))
    ensures run.sent.Some? ==> run.sent.value == text
    ensures run.result.success <==> TwitterConfigured(settings) && reply.Ok?
    ensures run.result.success ==> run.result.id == Some(reply.value) && run.result.error.None?
    ensures TwitterConfigured(settings) && reply.Err? ==> run.result == PostResult(false, None, Some(reply.error.message))
  {
    if !TwitterConfigured(settings) then TwitterRun(None, PostResult(false, None, Some(NotConfigured)))
    else
      match reply
      case Ok(id) => TwitterRun(Some(text), PostResult(true, Some(id), None))
      case Err(e) => TwitterRun(Some(text), PostResult(false, None, Some(e.message)))
  }

  // ===========================================================================
  // Both platforms (`postToAllPlatforms`)
  // ===========================================================================

  const TweetLimit: int := 280
  const Ellipsis: Str := Lit("...")
  const WarpcastConversations: Str := Lit("https://warpcast.com/~/conversations/")

  /** "\n\n🖼️ See artwork: " followed by the Warpcast link to the cast. */
  function CastLink(castHash: Str): (r: Str)
    ensures |r| == 56 + |castHash|
    ensures r[|r| - |castHash|..] == castHash
  {
    Lit("\n\n") + FramedPicture + EmojiPresentation + Lit(" See artwork: ") + WarpcastConversations + castHash
  }

  /** The cast was posted and reported a truthy hash. */
  predicate HasCastHash(farcaster: PostResult)
  {
    farcaster.success && Truthy(farcaster.id)
  }

  /**
   The tweet text: the post itself, or, when the cast has a hash, the post cut
   to leave room for the link (keeping `280 - |link| - 3` units and "...")
   followed by the link.
   */
  function TwitterText(text: Str, farcaster: PostResult): (r: Str)
    ensures !HasCastHash(farcaster) ==> r == text
    ensures HasCastHash(farcaster) ==>
              var link := CastLink(farcaster.id.value);
              && |link| <= |r|
              && r[|r| - |link|..] == link
              && (|text| + |link| <= TweetLimit ==> r == text + link)
              && (|text| + |link| > TweetLimit && |link| <= TweetLimit - 3 ==>
                    r == text[..TweetLimit - 3 - |link|] + Ellipsis + link && |r| == TweetLimit)
  {
    if !HasCastHash(farcaster) then text
    else
      var link := CastLink(farcaster.id.value);
      var maxTextLength := TweetLimit - |link|;
      var kept := if |text| > maxTextLength then Substring(text, 0, maxTextLength - 3) + Ellipsis else text;
      kept + link
  }

  /** Whenever the link itself leaves room for "...", the tweet fits in 280 code units. */
  lemma TweetFits(text: Str, farcaster: PostResult)
    requires HasCastHash(farcaster) ==> |CastLink(farcaster.id.value)| <= TweetLimit - 3
    requires |text| <= TweetLimit
    ensures |TwitterText(text, farcaster)| <= TweetLimit
  {
  }

  /**
   For the usual 42-character cast hash ("0x" and 40 hex digits) a post longer
   than 182 code units keeps its first 179 and gains "...".
   */
  lemma TypicalCastLinkCut(text: Str, farcaster: PostResult)
    requires HasCastHash(farcaster) && |farcaster.id.value| == 42
    ensures |text| <= 182 ==> TwitterText(text, farcaster) == text + CastLink(farcaster.id.value)
    ensures |text| > 182 ==> TwitterText(text, farcaster) == text[..179] + Ellipsis + CastLink(farcaster.id.value)
  {
  }

  datatype SocialRun = SocialRun(farcaster: FarcasterRun, twitter: TwitterRun)

  /**
   `postToAllPlatforms`: Farcaster first, then a tweet whose text links the cast
   when one was made. Neither failure stops the other call.
   */
  function PostToAllPlatforms(settings: Config.Settings, text: Str, imageUrl: Option<Str>,
                              castReply: CastReply, tweetReply: Result<Str>): (run: SocialRun)
    ensures run.farcaster == PostToFarcaster(settings, text, imageUrl, castReply)
    ensures run.twitter == PostToTwitter(settings, TwitterText(text, run.farcaster.result), tweetReply)
    ensures TwitterConfigured(settings) && !HasCastHash(run.farcaster.result) ==> run.twitter.sent == Some(text)
    ensures TwitterConfigured(settings) && (!FarcasterConfigured(settings) || !castReply.CastAccepted?) ==>
              run.twitter.sent == Some(text)
  {
    var farcaster := PostToFarcaster(settings, text, imageUrl, castReply);
    var twitter := PostToTwitter(settings, TwitterText(text, farcaster.result), tweetReply);
    SocialRun(farcaster, twitter)
  }

  // ===========================================================================
  // The announcement (`formatSocialPost`)
  // ===========================================================================

  const TaglineCount: nat := 10

  /** The ten taglines, one picked at random per post. */
  const Taglines: seq<Str> := [
    Lit("Autonomously created & minted on Base by PixelOracle ") + CrystalBall,
    Lit("Born from code, minted on Base. No humans involved. ") + Robot,
    Lit("The Oracle dreamed this into existence on Base ✨"),
    Lit("100% AI-generated & autonomously minted ") + ArtistPalette,
    Lit("Fresh from the Oracle's imagination → Base blockchain ") + CrystalBall,
    Lit("Created, minted & shared — all by PixelOracle ") + GlowingStar,
    Lit("Another vision from the autonomous Oracle ") + Dizzy,
    Lit("AI dreams made permanent on Base ⛓") + EmojiPresentation,
    Lit("The Oracle never sleeps. New art minted. ") + CrescentMoon,
    Lit("Conjured by code, sealed on-chain ") + CrystalBall
  ]

  const MainnetTxPrefix: Str := Lit("https://basescan.org/tx/")
  const ShortTxPrefix: Str := Lit("basescan.org/tx/")
  const ShortLinkLength: int := 35

  /** The explorer link as displayed: without "https://" on mainnet, cut to 35 units, then "...". */
  function ShortBaseScan(baseScanUrl: Str): (r: Str)
    ensures |r| <= ShortLinkLength + 3
    ensures EndsWith(r, Ellipsis)
    ensures !Contains(baseScanUrl, MainnetTxPrefix) ==>
              var kept := if |baseScanUrl| < ShortLinkLength then |baseScanUrl| else ShortLinkLength;
              r == baseScanUrl[..kept] + Ellipsis
  {
    var displayed := ReplaceFirst(baseScanUrl, MainnetTxPrefix, ShortTxPrefix);
    SubstringPrefix(displayed, ShortLinkLength);
    Substring(displayed, 0, ShortLinkLength) + Ellipsis
  }

  /** A mainnet explorer link shows "basescan.org/tx/" and the first 19 units of the hash. */
  lemma MainnetShortLink(txHash: Str)
    requires |txHash| >= 19
    ensures ShortBaseScan(MainnetTxPrefix + txHash) == ShortTxPrefix + txHash[..19] + Ellipsis
  {
    var url := MainnetTxPrefix + txHash;
    assert url[..|MainnetTxPrefix|] == MainnetTxPrefix;
    ReplacePrefix(url, MainnetTxPrefix, ShortTxPrefix);
    assert url[|MainnetTxPrefix|..] == txHash;
    var displayed := ShortTxPrefix + txHash;
    assert displayed[..ShortLinkLength] == ShortTxPrefix + txHash[..19];
  }

  /** "🎨 New artwork minted!\n\n\"" */
  const PostHeader: Str := ArtistPalette + Lit(" New artwork minted!\n\n\"")
  /** "\"\n\n" */
  const AfterTitle: Str := Lit("\"\n\n")
  const ShortOpenSea: Str := Lit("opensea.io/assets/base/...")

  /** "\n\n⛓️ <explorer link>\n🖼️ opensea.io/assets/base/..." */
  function LinksBlock(baseScanUrl: Str): Str
  {
    Lit("\n\n⛓") + EmojiPresentation + Lit(" ") + ShortBaseScan(baseScanUrl)
    + Lit("\n") + FramedPicture + EmojiPresentation + Lit(" ") + ShortOpenSea
  }

  /**
   `formatSocialPost(title, baseScanUrl, openSeaUrl)`: the header, the quoted
   title, the tagline `Taglines[pick]`, and the two display links. The OpenSea
   link shown is a fixed placeholder: the `openSeaUrl` argument is not used.
   */
  function FormatSocialPost(title: Str, baseScanUrl: Str, openSeaUrl: Str, pick: nat): (r: Str)
    requires pick < TaglineCount
    ensures StartsWith(r, PostHeader + title + (AfterTitle + Taglines[pick]))
    ensures EndsWith(r, ShortOpenSea)
  {
    var tail := PostTail(baseScanUrl, pick);
    StartsWithAppend(PostHeader + title, tail, AfterTitle + Taglines[pick]);
    EndsWithPrepend(PostHeader + title, tail, ShortOpenSea);
    PostHeader + title + PostTail(baseScanUrl, pick)
  }

  /** Everything after the title: the closing quote, the tagline and the links. */
  function PostTail(baseScanUrl: Str, pick: nat): (r: Str)
    requires pick < TaglineCount
    ensures StartsWith(r, AfterTitle + Taglines[pick])
    ensures EndsWith(r, ShortOpenSea)
  {
    var tagline := Taglines[pick];
    assert (AfterTitle + tagline + LinksBlock(baseScanUrl))[..|AfterTitle + tagline|] == AfterTitle + tagline;
    AfterTitle + Taglines[pick] + LinksBlock(baseScanUrl)
  }

  /** The post does not depend on the OpenSea link it is given. */
  lemma FormatIgnoresOpenSeaUrl(title: Str, baseScanUrl: Str, u1: Str, u2: Str, pick: nat)
    requires pick < TaglineCount
    ensures FormatSocialPost(title, baseScanUrl, u1, pick) == FormatSocialPost(title, baseScanUrl, u2, pick)
  {
  }

  lemma StartsWithAppend(h: Str, t: Str, p: Str)
    requires StartsWith(t, p)
    ensures StartsWith(h + t, h + p)
  {
    assert (h + t)[..|h + p|] == h + t[..|p|];
  }

  lemma EndsWithPrepend(h: Str, t: Str, p: Str)
    requires EndsWith(t, p)
    ensures EndsWith(h + t, p)
  {
    assert (h + t)[|h + t| - |p|..] == t[|t| - |p|..];
  }

  lemma CancelAround(h: Str, a: Str, b: Str, t: Str)
    requires h + a + t == h + b + t
    ensures a == b
  {
    assert |a| == |b|;
    assert a == (h + a + t)[|h|..|h| + |a|];
    assert b == (h + b + t)[|h|..|h| + |b|];
  }

  /** Two posts with the same tagline and explorer link are equal only for equal titles. */
  lemma FormatTitleInjective(t1: Str, t2: Str, baseScanUrl: Str, openSeaUrl: Str, pick: nat)
    requires pick < TaglineCount
    requires FormatSocialPost(t1, baseScanUrl, openSeaUrl, pick) == FormatSocialPost(t2, baseScanUrl, openSeaUrl, pick)
    ensures t1 == t2
  {
    CancelAround(PostHeader, t1, t2, PostTail(baseScanUrl, pick));
  }
}
