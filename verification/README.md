# PixelOracle, modelled in Dafny

PixelOracle is an autonomous art agent on the Base chain. In each creation
cycle it:

- checks its wallet balance;
- asks a chat model for an art concept and an image model for the picture;
- pins the image and the NFT metadata to IPFS through Pinata;
- mints the token;
- writes a short announcement and posts it to Farcaster and to Twitter/X.

Between cycles it polls both networks for mentions and answers them from a
keyword classifier. When a collector buys a piece it can thank them.

This project models the deterministic core of that program:

- the two retry policies: the generic executor and the image loop;
- the text and URL builders: IPFS gateway URLs, explorer and OpenSea links,
  the tweet text with its 280-unit budget, the announcement post and the
  collector's short address;
- the mention classifier, and the dedup-and-cap logic of the two mention polls;
- the step sequence of a creation cycle, and the timer that repeats it;
- the environment lookup rules.

Every outside call is an outcome parameter: OpenAI, Pinata, Neynar, Twitter,
the RPC node and the clock. Every `Math.random` pick is an index or a boolean
parameter. JavaScript strings are sequences of UTF-16 code units
(`JsText.Str`), so `.length`, `substring` and `slice` count the way the program
counts.

The creation cycle is a chain of methods, one per stage, from
`Agent.CreateArtworkCycle` down to `Agent.Post`. Each takes the trace of the
steps taken so far and returns the finished run, and each states what the
rest of the cycle does from its stage on.

Files, one module each:

| file | module | covers |
|---|---|---|
| JsText.dfy | JsText | UTF-16 strings and the built-ins the program uses: `includes`, `indexOf`, `replace` with a string pattern, `substring`, `slice`, `toLowerCase`, `split`, `join`, and number-to-decimal |
| Results.dfy | Results | `Result`/`Option` values, and JavaScript truthiness of an optional string |
| Config.dfy | Config | src/config.ts |
| IpfsUploader.dfy | IpfsUploader | src/services/ipfsUploader.ts |
| Blockchain.dfy | Blockchain | src/services/blockchain.ts |
| ArtGenerator.dfy | ArtGenerator | src/services/artGenerator.ts |
| Social.dfy | Social | src/services/social.ts |
| Interactions.dfy | Interactions | src/services/interactions.ts |
| Agent.dfy | Agent | src/agent.ts |

## Model

| member | source | states |
|---|---|---|
| JsText.Split | src/config.ts:53 | `split(",")` always yields at least one part, no part contains the separator, and joining the parts with it gives back the input |
| JsText.SplitJoin | src/config.ts:53 | splitting the join of separator-free parts gives back exactly those parts |
| JsText.ReplaceFirst | src/services/social.ts:171 | a string pattern replaces only its first occurrence, and an input without the pattern comes back unchanged |
| JsText.SubstringPrefix | src/services/social.ts:144 | `substring(0, n)` clamps `n` into the string, so a negative end gives the empty string and an end within the string keeps exactly `n` units |
| JsText.ToLowerIdempotent | src/services/interactions.ts:329 | lower-casing twice is the same as lower-casing once |
| JsText.DecimalRoundTrip | src/services/blockchain.ts:109-115 | the decimal token id written into a URL reads back as the same number |
| Config.RequireEnv | src/config.ts:12-18 | succeeds exactly when the variable is set and non-empty, returns it unchanged, and otherwise fails with the error naming the key |
| Config.OptionalEnv | src/config.ts:20-22 | a missing or empty variable gives the default, and any other value is returned as is |
| Config.LoadSettings | src/config.ts:28-54 | start-up fails exactly when one of the four required variables is missing, naming the first missing one in declaration order; the network defaults to "baseSepolia"; the theme list is never empty, no theme contains a comma, and the themes joined with commas give back ART_THEMES or the default |
| Config.DefaultThemesSplit | src/config.ts:53 | the default theme string splits into surreal, cyberpunk, abstract, cosmic and dreamscape |
| Config.DefaultThemeList | src/config.ts:53 | without ART_THEMES the loaded themes are exactly those five |
| Config.ChainOf | src/config.ts:60 | the chain is Base mainnet if and only if the network is "base" |
| Config.DefaultChainIsSepolia | src/config.ts:32 | without NETWORK the agent runs on Base Sepolia |
| IpfsUploader.RetryLoop | src/services/ipfsUploader.ts:33-43 | past the last attempt the loop makes no call and throws the "failed after" error; otherwise it makes between one call and the attempts left, with one sleep fewer than calls |
| IpfsUploader.RetryLoopOutcome | src/services/ipfsUploader.ts:33-43 | from any attempt on: the first success is returned after exactly the calls up to it, with one sleep per failure before it; if all remaining attempts fail, the last error is rethrown after one sleep fewer than calls |
| IpfsUploader.WithRetry | src/services/ipfsUploader.ts:27-47 | with `maxRetries <= 0` nothing is called and "failed after N attempts" is thrown; otherwise the first success wins after `k + 1` calls and `k` sleeps, and if every attempt fails, the last error comes back after `maxRetries` calls and `maxRetries - 1` sleeps |
| IpfsUploader.RetryStopsAtFirstSuccess | src/services/ipfsUploader.ts:27-47 | never more than `maxRetries` calls; sleeps are always calls minus one; a success is the outcome of the last call and every earlier one failed; a failure after calls means all `maxRetries` attempts were made and the last error is returned unchanged |
| IpfsUploader.FirstOkOrAllFailed | src/services/ipfsUploader.ts:33-43 | any run of attempts either all fail or has a first success, so the two cases of the retry contract cover every input |
| IpfsUploader.PinOutcome | src/services/ipfsUploader.ts:86-95 | a pinned upload yields "ipfs://" + its hash; a rejected one yields the failure prefix followed by at most the first 200 units of the response body |
| IpfsUploader.UploadImage | src/services/ipfsUploader.ts:53-100 | one to three attempts; a success is "ipfs://" + the hash of the first attempt that pinned; a failure means none of the three pinned |
| IpfsUploader.UploadMetadata | src/services/ipfsUploader.ts:106-149 | the same three-attempt guarantee for the metadata JSON |
| IpfsUploader.BuildMetadata | src/services/ipfsUploader.ts:169-194 | the name is the title; the image is the uploaded image URI; the description gains the fixed suffix; the traits are Theme, Artist, Generation, Chain, Created in that order, holding the theme, the token id and the creation date |
| IpfsUploader.CreateAndUploadMetadata | src/services/ipfsUploader.ts:155-205 | the image is uploaded first as `pixeloracle-{tokenId}.png`; only when that succeeds is metadata pointing at the returned image URI uploaded as `pixeloracle-metadata-{tokenId}.json`; the result holds both returned URIs, and an upload error comes back unchanged |
| IpfsUploader.IpfsToHttp | src/services/ipfsUploader.ts:211-216 | an `ipfs://` URI becomes the Pinata gateway URL with the same rest; anything else is returned unchanged |
| IpfsUploader.IpfsToHttpOfUpload | src/services/ipfsUploader.ts:211-216 | "ipfs://" + h maps to "https://gateway.pinata.cloud/ipfs/" + h |
| IpfsUploader.GatewayIsNotIpfs | src/services/ipfsUploader.ts:211-216 | a gateway URL never starts with "ipfs://" |
| IpfsUploader.IpfsToHttpIdempotent | src/services/ipfsUploader.ts:211-216 | converting twice is the same as converting once |
| Blockchain.ContractAddress | src/services/blockchain.ts:15-22 | throws the "NFT_CONTRACT_ADDRESS not set" error exactly when no address is configured, and otherwise returns it unchanged |
| Blockchain.TotalMinted | src/services/blockchain.ts:28-35 | the supply read is reached only through the address guard |
| Blockchain.MintArtwork | src/services/blockchain.ts:57-95 | succeeds exactly when the address is set, the supply read and the write succeed and the receipt reports success; the token id returned is the supply read before the write and the hash is the submitted one; a reverted receipt gives "Transaction failed"; the node requests are read, write, wait, cut short at the first failure |
| Blockchain.BaseScanUrl | src/services/blockchain.ts:101-107 | the transaction page on basescan.org on network "base", and on sepolia.basescan.org otherwise |
| Blockchain.BaseScanUrlInjective | src/services/blockchain.ts:101-107 | different transaction hashes give different explorer links |
| Blockchain.OpenSeaUrl | src/services/blockchain.ts:109-115 | the mainnet or testnet OpenSea token page for contract and id; throws like the address guard when no contract is configured |
| Blockchain.OpenSeaUrlInjective | src/services/blockchain.ts:109-115 | different token ids of one contract give different OpenSea links |
| ArtGenerator.StyleModifier | src/services/artGenerator.ts:14-25 | a known theme gets its table entry, and any other theme stands for itself |
| ArtGenerator.GenerateArtPrompt | src/services/artGenerator.ts:38-85 | the request carries the style of the picked theme; the result's theme is one of the configured themes; prompt, title and description are the reply's; a failed reply propagates |
| ArtGenerator.ImageAttempt | src/services/artGenerator.ts:98-121 | a response without an image URL fails with "No image URL returned from DALL-E"; a thrown error is that attempt's failure; a success is the downloaded image |
| ArtGenerator.GenerateImage | src/services/artGenerator.ts:91-134 | with `retries >= 0` it behaves exactly as the generic retry executor with `retries + 1` attempts; with `retries < 0` it makes no attempt and throws "Image generation failed after all retries" |
| ArtGenerator.ImageLoopIsRetry | src/services/artGenerator.ts:95-131 | attempt for attempt, the image loop is the generic retry loop with one attempt more than `retries` |
| ArtGenerator.DefaultImageAttempts | src/services/artGenerator.ts:91-134 | with the default two retries: one to three attempts, one 5 s sleep after each failed attempt but the last, the first success returned, and the third attempt's error rethrown when all fail |
| ArtGenerator.OracleMessage | src/services/artGenerator.ts:140-169 | the model's text when it is non-empty, and the fixed "A new vision emerges" line otherwise; never empty |
| Social.PostToFarcaster | src/services/social.ts:14-60 | returns "Not configured" without a request when the Neynar key or signer is empty; the request carries the signer and text; embeds has one entry if and only if an image URL is given, and that entry is its gateway URL; success exactly when the cast is accepted, with the Neynar error text or the thrown message otherwise |
| Social.PostToTwitter | src/services/social.ts:72-114 | returns "Not configured" without tweeting when any of the four credentials is empty; otherwise tweets the text unchanged; success exactly when the tweet call returns, with its id |
| Social.CastLink | src/services/social.ts:139-141 | the link block is 56 units plus the hash, and ends with the hash |
| Social.TwitterText | src/services/social.ts:136-147 | the text is unchanged without a cast hash; with one it ends with the Warpcast link, keeps text that fits whole, and otherwise cuts it to `280 - |link| - 3` units plus "..." so that the tweet is exactly 280 units |
| Social.TweetFits | src/services/social.ts:136-147 | a text of at most 280 units stays within 280 units whenever the link leaves room for the ellipsis |
| Social.TypicalCastLinkCut | src/services/social.ts:139-146 | with a 42-unit cast hash, texts up to 182 units are kept whole and longer ones are cut to 179 units plus "..." |
| Social.PostToAllPlatforms | src/services/social.ts:125-156 | Farcaster is posted first; the tweet's text depends only on the input text and Farcaster's result, and is the input text whenever no cast hash came back |
| Social.ShortBaseScan | src/services/social.ts:171 | the short link is at most 38 units and ends with "..."; a URL without the mainnet prefix is cut to its first 35 units (kept whole when shorter) and followed by "..." |
| Social.MainnetShortLink | src/services/social.ts:171 | a mainnet transaction link loses its scheme and keeps the first 19 units of the hash before "..." |
| Social.FormatSocialPost | src/services/social.ts:162-196 | the post starts with the header, the quoted title and the picked tagline, and ends with the fixed OpenSea line |
| Social.FormatIgnoresOpenSeaUrl | src/services/social.ts:162-196 | the OpenSea URL argument does not influence the post |
| Social.FormatTitleInjective | src/services/social.ts:162-196 | different titles give different posts |
| Interactions.Classify | src/services/interactions.ts:332-362 | a keyword reply is chosen exactly when its keywords occur and no higher-priority branch's do (greeting, hello, praise, schedule, how-it-works, collect); with no keyword, the draw decides between the acknowledgement and no reply |
| Interactions.Handle | src/services/interactions.ts:330 | "@" + the username for a non-empty username, and "friend" otherwise |
| Interactions.ReplyText | src/services/interactions.ts:332-362 | every reply mentions the handle |
| Interactions.MentionReply | src/services/interactions.ts:327-363 | there is no reply exactly when no keyword test holds of the lower-cased text and the draw says no; any reply contains the handle |
| Interactions.MentionReplyFollowsTests | src/services/interactions.ts:327-363 | the reply is the text of the first kind whose keyword test holds of the lower-cased mention, addressed to the handle; with no keyword, the acknowledgement when the draw says so |
| Interactions.MentionReplyIgnoresCase | src/services/interactions.ts:329 | lower-casing the mention first changes nothing |
| Interactions.GreetingOutranksCollect | src/services/interactions.ts:332-354 | a text with both a greeting and a buying keyword gets the greeting |
| Interactions.HowNeedsVerb | src/services/interactions.ts:348 | the how-it-works reply needs "how" together with "work", "make" or "create" |
| Interactions.FirstNotifications | src/services/interactions.ts:217 | at most the first five notifications, in order |
| Interactions.CastAnswers | src/services/interactions.ts:222-229 | each notification with a cast is answered by the classifier on its text and author, and one without a cast gets none |
| Interactions.PollFarcaster | src/services/interactions.ts:185-240 | no feed changes nothing; the processed set only grows, by exactly the hashes of the first five casts; at most five replies, each to a distinct cast that was new, carrying that cast's classifier answer, in notification order; every new cast with an answer is replied to |
| Interactions.AnswerCasts | src/services/interactions.ts:217-236 | the loop over the examined notifications, with the same guarantees, replies in notification order |
| Interactions.TwitterUsername | src/services/interactions.ts:282-299 | the looked-up username when it is non-empty, and "friend" otherwise; never empty |
| Interactions.TwitterHandleIsMention | src/services/interactions.ts:299 | a Twitter reply always addresses an "@" handle, because the username is never empty |
| Interactions.TweetAnswers | src/services/interactions.ts:299-302 | each tweet is answered by the classifier on its text and its author's username |
| Interactions.PollTwitter | src/services/interactions.ts:246-325 | without read credentials or mentions nothing changes; otherwise the processed set grows by exactly the ids examined; at most three replies, each to a distinct new tweet; the loop stops early only after the third delivered reply, and right after it: the tweet answered by the third reply is the last one examined; replies go out in timeline order; every examined new answered tweet whose reply went through is among them |
| Interactions.AnswerTweets | src/services/interactions.ts:289-317 | the loop over the timeline, with the same guarantees |
| Interactions.AnswerTweet | src/services/interactions.ts:290-315 | one mention: a new id is recorded, and its reply is kept, after the earlier ones, exactly when there is one and it went out; the loop state stays as described |
| Interactions.ShortAddress | src/services/interactions.ts:111 | the first six units, "..." and the last four for an address of ten or more units; its length for any address |
| Interactions.ShortAddressOfAccount | src/services/interactions.ts:111 | a 42-unit address shortens to 13 units that keep its first six and last four |
| Interactions.ThankCollector | src/services/interactions.ts:106-140 | needs a configured contract, and throws the address error otherwise; the post is the picked message for the short address and token, then the framed-picture line with the OpenSea URL; it goes to Farcaster without embeds and to Twitter unchanged |
| Interactions.StartMentionListener | src/services/interactions.ts:149-183 | the Farcaster poll runs every 2 minutes if and only if Neynar is configured, and the Twitter poll every 8 hours if and only if the API key and access token are set; each started listener polls once right away, Farcaster first, and no other initial poll is made |
| Interactions.TwitterListenerNeedsLess | src/services/interactions.ts:169-172 | a Twitter setup that can post can also poll |
| Interactions.StopListeners | src/services/interactions.ts:388-398 | both timers are cleared |
| Agent.Post | src/agent.ts:94-114 | the posted text is the formatted post of the announcement and both links, sent with the uploaded image URI and the image bytes; the cycle completes whatever the networks answer, and the summary reports title, minted id, both links, the gateway URL of the image and each network's success flag |
| Agent.Share | src/agent.ts:92-114 | the links step comes after the announcement; the run completes exactly when a contract address is configured, since building the OpenSea link throws without one; a completed run reports the explorer link of the mint's hash and the OpenSea link of the minted id |
| Agent.Announce | src/agent.ts:85-114 | the announcement is asked for with the concept's theme and title; the run completes exactly when the announcement succeeds and an address is configured |
| Agent.MintStage | src/agent.ts:77-114 | the mint gets the metadata URI, the prompt and the theme; the run completes exactly when the mint (supply read, submission, successful receipt), the announcement and the address all succeed; a completed run reports the supply read before the write as the token id |
| Agent.Publish | src/agent.ts:67-114 | the upload gets the image, title, description, theme and token id; the run completes exactly when both uploads and every later call succeed; the post carries the first pinned image URI and the same image bytes |
| Agent.Count | src/agent.ts:62-114 | the upload's token id is the supply `getTotalMinted` read; the run completes exactly when that read and every later call succeed |
| Agent.Render | src/agent.ts:58-114 | the image is asked for with the concept's prompt and the upload gets the image the generator returned; the run completes exactly when the image, the supply read and every later call succeed |
| Agent.Conceive | src/agent.ts:51-114 | the concept is asked for in the style of the picked theme, and its title, description and theme reach the upload |
| Agent.CreateArtworkCycle | src/agent.ts:39-121 | the steps are a prefix of the fixed order: balance, concept, image, token id, upload, mint, announcement, links, post; only the last step may throw, and the cycle then ends in that caught error; it pauses exactly on a low balance; it completes exactly when the balance suffices and the concept, image, supply read, both uploads, the mint with a successful receipt and the announcement all succeed, and fails exactly otherwise, so neither social network's answer can end it early; a completed run posts the announcement with the mint's links, the first pinned image URI and the generated image |
| Agent.TimerDelay | src/agent.ts:128-140 | the delay is `minutes * 60000` when that lies in 1..2147483647 ms, and Node's fallback of 1 ms otherwise |
| Agent.IntervalKeptExactly | src/agent.ts:128 | every interval from 1 to 35791 minutes is used as written |
| Agent.CycleStart | src/agent.ts:133-140 | the first cycle starts at once; defined timer firing by timer firing (one delay after the first cycle finished, then a delay after each previous firing), cycle k > 0 starts k delays after the first cycle finished |
| Agent.CyclesStartedCounts | src/agent.ts:133-140 | cycle k has started by time t exactly when k is below the number of cycles started by t |

## Left out

- Outside calls are outcome parameters, not models: OpenAI chat and images, Pinata, Neynar, the Twitter client, viem reads, writes and receipt waits, image downloads and the keccak-256 hash of the prompt.
- Timer scheduling beyond the periods and delays, timeouts (`AbortController`), `Promise.all` in the thank-you post, and process signal handling are not modelled. Overlapping cycles of the autonomous loop are only reflected in `Agent.CycleStart`.
- `Math.random` picks are parameters (an index or a boolean); their distribution is not modelled.
- `checkBalance` is a parameter of the cycle. Its `parseFloat` of the formatted balance and the 0.00003 float threshold are not modelled.
- `parseInt` of CREATION_INTERVAL_MINUTES is not modelled: the interval is taken as the parsed integer, and NaN is out of scope.
- `Number(totalSupply)` and `bigint` token ids are unbounded naturals here.
- `toLowerCase` is modelled on ASCII letters only; no other character changes case.
- `String.replace` special `$` patterns are not modelled: the replacement strings used contain none.
- A missing field in the concept JSON is not modelled: the reply is either a complete concept or an error.
- Property keys inherited by the style-modifier object literal are not modelled, for example a theme named "constructor".
- A cast notification whose cast lacks a hash or text is not modelled: casts carry both.
- The Twitter poll asks for `max_results: 10`. The timeline is a parameter of any length.
- `startMintListener` is not modelled. Its body is disabled and it returns at once (src/services/interactions.ts:55).
- The command-line entry point (`main`, the `--once` flag) and its console output are not modelled. The same goes for src/index.ts and the scripts.
- JsText.ReplaceFirst: the first-occurrence contract is stated with an existential; the position is `IndexOf`'s.
- Social.FormatSocialPost: states the header, title, tagline and closing OpenSea line. The explorer line in between is stated only through `Social.ShortBaseScan`.
- Social.TwitterText: when the link alone exceeds 277 units, only the link ending is stated. Such a hash does not occur.
- Social.ShortBaseScan: for a URL that contains the mainnet prefix past its start, only the length bound and the "..." ending are stated.
- Interactions.ReplyText: states only that the reply names the handle. The seven reply texts themselves are the definition.
- Interactions.ShortAddress: for addresses shorter than ten units only the length is stated.
- Agent.CreateArtworkCycle: that the social answers cannot change the steps taken is stated through how the cycle ends and through the upload and post steps. The arguments of the other steps are stated by the stage methods that take them (`Agent.Conceive`, `Agent.MintStage`, `Agent.Announce`, `Agent.Share`).
- The classifier's answers for a poll are computed before the loop from the mentions and the random draws. Since the classifier is a pure function, this gives the same replies as computing them inside the loop.
