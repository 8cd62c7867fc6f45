/**
 Community interaction (src/services/interactions.ts): the keyword classifier
 that answers mentions, one poll of Farcaster and of Twitter mentions with their
 processed-id sets, the collector thank-you post, and the listener timers.

 Every API response is an input; each random draw of the classifier is a
 boolean per mention; the processed-id sets are passed in and returned.
 */
module Interactions {
  import opened JsText
  import opened Results
  import Config
  import Blockchain
  import Social

  // ===========================================================================
  // The mention classifier (`generateMentionReply`)
  // ===========================================================================

  /** The answers `generateMentionReply` can give, in the order its tests run. */
  datatype ReplyKind = Greeting | Hello | Praise | Schedule | HowItWorks | Collect | Acknowledge

  /** Position of a kind in the order of the tests; the keyword-free acknowledgement is last. */
  function Rank(k: ReplyKind): nat
  {
    match k
    case Greeting => 0
    case Hello => 1
    case Praise => 2
    case Schedule => 3
    case HowItWorks => 4
    case Collect => 5
    case Acknowledge => 6
  }

  /** The keyword test of a kind holds of the (already lower-cased) text. */
  ghost predicate Triggers(k: ReplyKind, text: Str)
  {
    match k
    case Greeting => Contains(text, Lit("gm")) || Contains(text, Lit("good morning"))
    case Hello => Contains(text, Lit("hello")) || Contains(text, Lit("hi ")) || Contains(text, Lit("hey"))
    case Praise =>
      Contains(text, Lit("love")) || Contains(text, Lit("amazing"))
      || Contains(text, Lit("beautiful")) || Contains(text, Lit("great"))
    case Schedule => Contains(text, Lit("when")) || Contains(text, Lit("next"))
    case HowItWorks =>
      Contains(text, Lit("how"))
      && (Contains(text, Lit("work")) || Contains(text, Lit("make")) || Contains(text, Lit("create")))
    case Collect => Contains(text, Lit("buy")) || Contains(text, Lit("mint")) || Contains(text, Lit("collect"))
    case Acknowledge => false
  }

  /** `k` is the first kind whose test holds. */
  ghost predicate FirstTrigger(k: ReplyKind, text: Str)
  {
    Triggers(k, text) && forall k' :: Rank(k') < Rank(k) ==> !Triggers(k', text)
  }

  /** No keyword test holds. */
  ghost predicate NoKeyword(text: Str)
  {
    forall k :: !Triggers(k, text)
  }

  /**
   The chain of `if`s on the lower-cased text: the first test that holds decides;
   without any, the random draw (`Math.random() < 0.3`) decides between the
   acknowledgement and no reply.
   */
  function Classify(text: Str, draw: bool): (r: Option<ReplyKind>)
    ensures forall k :: k != Acknowledge ==> (r == Some(k) <==> FirstTrigger(k, text))
    ensures r == Some(Acknowledge) <==> NoKeyword(text) && draw
    ensures r == None <==> NoKeyword(text) && !draw
  {
    if Includes(text, Lit("gm")) || Includes(text, Lit("good morning")) then
      assert Triggers(Greeting, text);
      Some(Greeting)
    else if Includes(text, Lit("hello")) || Includes(text, Lit("hi ")) || Includes(text, Lit("hey")) then
      assert !Triggers(Greeting, text) && Triggers(Hello, text);
      Some(Hello)
    else if Includes(text, Lit("love")) || Includes(text, Lit("amazing"))
            || Includes(text, Lit("beautiful")) || Includes(text, Lit("great")) then
      assert !Triggers(Greeting, text) && !Triggers(Hello, text) && Triggers(Praise, text);
      Some(Praise)
    else if Includes(text, Lit("when")) || Includes(text, Lit("next")) then
      assert !Triggers(Greeting, text) && !Triggers(Hello, text) && !Triggers(Praise, text);
      assert Triggers(Schedule, text);
      Some(Schedule)
    else if Includes(text, Lit("how"))
            && (Includes(text, Lit("work")) || Includes(text, Lit("make")) || Includes(text, Lit("create"))) then
      assert !Triggers(Greeting, text) && !Triggers(Hello, text) && !Triggers(Praise, text);
      assert !Triggers(Schedule, text) && Triggers(HowItWorks, text);
      Some(HowItWorks)
    else if Includes(text, Lit("buy")) || Includes(text, Lit("mint")) || Includes(text, Lit("collect")) then
      assert !Triggers(Greeting, text) && !Triggers(Hello, text) && !Triggers(Praise, text);
      assert !Triggers(Schedule, text) && !Triggers(HowItWorks, text) && Triggers(Collect, text);
      Some(Collect)
    else
      assert !Triggers(Greeting, text) && !Triggers(Hello, text) && !Triggers(Praise, text);
      assert !Triggers(Schedule, text) && !Triggers(HowItWorks, text) && !Triggers(Collect, text);
      assert !Triggers(Acknowledge, text);
      if draw then Some(Acknowledge) else None
  }

  /** How a reply addresses its author: "@" and the username when there is one, else "friend". */
  function Handle(username: Option<Str>): (r: Str)
    ensures Truthy(username) ==> r == Lit("@") + username.value
    ensures !Truthy(username) ==> r == Lit("friend")
  {
    if Truthy(username) then Lit("@") + username.value else Lit("friend")
  }

  const Sun: Str := Lit("☀️")

  /** The reply text of each kind, addressed to `user`. */
  function ReplyText(k: ReplyKind, user: Str): (r: Str)
    ensures Contains(r, user)
  {
    var (before, after) :=
      match k
      case Greeting => (Lit("gm "), Lit(" ") + Sun + Lit(" The Oracle sees a creative day ahead for you! ") + CrystalBall)
      case Hello => (Lit("Hello "), Lit("! ") + WavingHand + Lit(" The Oracle welcomes you. What vision do you seek? ") + CrystalBall)
      case Praise =>
        (Lit("Thank you "),
         Lit("! ") + FoldedHands + Lit(" The Oracle is grateful for your kind words. Art thrives on appreciation. ✨"))
      case Schedule =>
        ([], Lit(", the Oracle creates on its own rhythm ") + ArtistPalette + Lit(" New visions emerge every hour. Stay tuned! ⏰"))
      case HowItWorks =>
        ([], Lit(", I am an autonomous AI agent ") + Robot
             + Lit(" I generate art with DALL-E, mint NFTs on Base, and share them here — all without human intervention! ")
             + CrystalBall)
      case Collect =>
        ([], Lit(", you can collect my art on OpenSea! ") + FramedPicture + Social.EmojiPresentation
             + Lit(" Each piece is minted on Base. Check the link in my bio! ") + GemStone)
      case Acknowledge => (Lit("The Oracle acknowledges you, "), Lit(" ") + CrystalBall + Lit("✨"));
    ContainsInfix(before, user, after);
    before + user + after
  }

  /**
   `generateMentionReply(mentionText, username)`: classify the lower-cased text and
   answer with that kind's text; `None` is the `null` of "no reply".
   */
  function MentionReply(mentionText: Str, username: Option<Str>, draw: bool): (r: Option<Str>)
    ensures r.None? <==> NoKeyword(ToLower(mentionText)) && !draw
    ensures r.Some? ==> Contains(r.value, Handle(username))
  {
    match Classify(ToLower(mentionText), draw)
    case None => None
    case Some(k) => Some(ReplyText(k, Handle(username)))
  }

  /**
   The reply is the text of the first kind whose keyword test holds of the
   lower-cased mention; without any keyword, the acknowledgement when drawn.
   */
  lemma MentionReplyFollowsTests(mentionText: Str, username: Option<Str>, draw: bool)
    ensures forall k :: FirstTrigger(k, ToLower(mentionText)) ==>
              MentionReply(mentionText, username, draw) == Some(ReplyText(k, Handle(username)))
    ensures NoKeyword(ToLower(mentionText)) && draw ==>
              MentionReply(mentionText, username, draw) == Some(ReplyText(Acknowledge, Handle(username)))
  {
    var text := ToLower(mentionText);
    forall k | FirstTrigger(k, text)
      ensures MentionReply(mentionText, username, draw) == Some(ReplyText(k, Handle(username)))
    {
      assert k != Acknowledge;
      assert Classify(text, draw) == Some(k);
    }
  }

  /** Upper and lower case are the same to the classifier: the text is lower-cased before every test. */
  lemma MentionReplyIgnoresCase(mentionText: Str, username: Option<Str>, draw: bool)
    ensures MentionReply(ToLower(mentionText), username, draw) == MentionReply(mentionText, username, draw)
  {
    ToLowerIdempotent(mentionText);
  }

  /** A mention that both greets and asks to buy gets the greeting: the earlier test wins. */
  lemma GreetingOutranksCollect(text: Str, draw: bool)
    requires Triggers(Greeting, text) && Triggers(Collect, text)
    ensures Classify(text, draw) == Some(Greeting)
  {
    assert FirstTrigger(Greeting, text);
  }

  /** "how" alone is not enough for the explanation: one of "work", "make", "create" must appear too. */
  lemma HowNeedsVerb(text: Str, draw: bool)
    ensures Classify(text, draw) == Some(HowItWorks) ==>
              && Contains(text, Lit("how"))
              && (Contains(text, Lit("work")) || Contains(text, Lit("make")) || Contains(text, Lit("create")))
  {
    if Classify(text, draw) == Some(HowItWorks) {
      assert FirstTrigger(HowItWorks, text);
    }
  }

  // ===========================================================================
  // Farcaster poll (`checkAndReplyToFarcasterMentions`)
  // ===========================================================================

  datatype Cast = Cast(hash: Str, text: Str, authorUsername: Option<Str>)

  /** One mention notification; `cast` may be absent. */
  datatype Notification = Notification(cast: Option<Cast>)

  /** A reply cast: the parent it answers and its text. */
  datatype CastReply = CastReply(parentHash: Str, text: Str)

  datatype FarcasterPoll = FarcasterPoll(processed: set<Str>, replies: seq<CastReply>)

  /** Only the first five notifications of a poll are looked at. */
  const FarcasterExamined: nat := 5

  /** The notifications a poll looks at: the first five. */
  function FirstNotifications(notes: seq<Notification>): (r: seq<Notification>)
    ensures |r| <= FarcasterExamined
    ensures |notes| <= FarcasterExamined ==> r == notes
    ensures |notes| > FarcasterExamined ==> r == notes[..FarcasterExamined]
  {
    if |notes| <= FarcasterExamined then notes else notes[..FarcasterExamined]
  }

  /**
   What the classifier answers to the cast of each notification (`draws[m]` is the
   random draw for notification `m`); `None` where there is no cast or no reply.
   */
  function CastAnswers(notes: seq<Notification>, draws: seq<bool>): (r: seq<Option<Str>>)
    requires |notes| <= |draws|
    ensures |r| == |notes|
    ensures forall m :: 0 <= m < |notes| && notes[m].cast.Some? ==>
              r[m] == MentionReply(notes[m].cast.value.text, notes[m].cast.value.authorUsername, draws[m])
    ensures forall m :: 0 <= m < |notes| && notes[m].cast.None? ==> r[m].None?
  {
    seq(|notes|, m requires 0 <= m < |notes| =>
      if notes[m].cast.Some? then MentionReply(notes[m].cast.value.text, notes[m].cast.value.authorUsername, draws[m])
      else None)
  }

  /** The hashes of the casts among the first `n` notifications. */
  ghost function CastHashes(notes: seq<Notification>, n: nat): set<Str>
    requires n <= |notes|
  {
    if n == 0 then {}
    else CastHashes(notes, n - 1) + (if notes[n - 1].cast.Some? then {notes[n - 1].cast.value.hash} else {})
  }

  /** Notification `m` carries a cast not seen before it, in this poll or in an earlier one. */
  ghost predicate FreshCast(processed: set<Str>, notes: seq<Notification>, m: nat)
    requires m < |notes|
  {
    notes[m].cast.Some? && notes[m].cast.value.hash !in processed + CastHashes(notes, m)
  }

  /** `reply` answers the cast of notification `m` with the classifier's text. */
  ghost predicate AnswersCast(notes: seq<Notification>, answers: seq<Option<Str>>, m: nat, reply: CastReply)
    requires m < |notes| && m < |answers|
  {
    && notes[m].cast.Some?
    && reply.parentHash == notes[m].cast.value.hash
    && answers[m] == Some(reply.text)
  }

  /**
   One poll. `feed` is `None` when the user lookup, the `fid` or the notification
   request fails, and the poll then changes nothing. Otherwise only the first five
   notifications are looked at, as `AnswerCasts` describes; `sources[j]` is the
   notification that reply `j` answers.
   */
  method PollFarcaster(processed: set<Str>, feed: Option<seq<Notification>>, draws: seq<bool>)
    returns (run: FarcasterPoll, ghost sources: seq<nat>)
    requires |draws| >= FarcasterExamined
    ensures feed.None? ==> run == FarcasterPoll(processed, [])
    ensures processed <= run.processed
    ensures |run.replies| <= FarcasterExamined
    ensures forall j :: 0 <= j < |run.replies| ==> run.replies[j].parentHash in run.processed - processed
    ensures forall a, b :: 0 <= a < b < |run.replies| ==> run.replies[a].parentHash != run.replies[b].parentHash
    ensures feed.Some? ==>
              var notes := FirstNotifications(feed.value);
              var answers := CastAnswers(notes, draws);
              && run.processed == processed + CastHashes(notes, |notes|)
              && |sources| == |run.replies|
              && (forall j :: 0 <= j < |run.replies| ==>
                    sources[j] < |notes| && FreshCast(processed, notes, sources[j])
                    && AnswersCast(notes, answers, sources[j], run.replies[j]))
              && (forall a, b :: 0 <= a < b < |sources| ==> sources[a] < sources[b])
              && (forall m :: 0 <= m < |notes| && FreshCast(processed, notes, m) && answers[m].Some? ==> m in sources)
  {
    if feed.None? {
      return FarcasterPoll(processed, []), [];
    }
    var notes := FirstNotifications(feed.value);
    run, sources := AnswerCasts(processed, notes, CastAnswers(notes, draws));
  }

  /**
   The loop over the notifications of a poll. Each one with a cast whose hash is
   new has its hash recorded BEFORE the reply is generated, and gets a reply when
   the classifier gives one; no hash is answered twice.
   */
  method AnswerCasts(processed: set<Str>, notes: seq<Notification>, answers: seq<Option<Str>>)
    returns (run: FarcasterPoll, ghost sources: seq<nat>)
    requires |notes| == |answers|
    ensures processed <= run.processed
    ensures run.processed == processed + CastHashes(notes, |notes|)
    ensures |run.replies| <= |notes|
    ensures forall j :: 0 <= j < |run.replies| ==> run.replies[j].parentHash in run.processed - processed
    ensures forall a, b :: 0 <= a < b < |run.replies| ==> run.replies[a].parentHash != run.replies[b].parentHash
    ensures |sources| == |run.replies|
    ensures forall j :: 0 <= j < |run.replies| ==>
              sources[j] < |notes| && FreshCast(processed, notes, sources[j])
              && AnswersCast(notes, answers, sources[j], run.replies[j])
    ensures forall a, b :: 0 <= a < b < |sources| ==> sources[a] < sources[b]
    ensures forall m :: 0 <= m < |notes| && FreshCast(processed, notes, m) && answers[m].Some? ==> m in sources
  {
    var seen := processed;
    var replies: seq<CastReply> := [];
    sources := [];
    var i := 0;
    while i < |notes|
      invariant 0 <= i <= |notes|
      invariant seen == processed + CastHashes(notes, i)
      invariant |sources| == |replies| <= i
      invariant forall j :: 0 <= j < |replies| ==> replies[j].parentHash in seen - processed
      invariant forall a, b :: 0 <= a < b < |replies| ==> replies[a].parentHash != replies[b].parentHash
      invariant forall j :: 0 <= j < |replies| ==>
                  sources[j] < i && FreshCast(processed, notes, sources[j]) && AnswersCast(notes, answers, sources[j], replies[j])
      invariant forall a, b :: 0 <= a < b < |sources| ==> sources[a] < sources[b]
      invariant forall m :: 0 <= m < i && FreshCast(processed, notes, m) && answers[m].Some? ==> m in sources
    {
      var note := notes[i];
      if note.cast.Some? && note.cast.value.hash !in seen {
        var cast := note.cast.value;
        seen := seen + {cast.hash};
        var reply := answers[i];
        if reply.Some? {
          replies := replies + [CastReply(cast.hash, reply.value)];
          sources := sources + [i];
        }
      }
      i := i + 1;
    }
    run := FarcasterPoll(seen, replies);
  }

  // ===========================================================================
  // Twitter poll (`checkAndReplyToTwitterMentions`)
  // ===========================================================================

  datatype Tweet = Tweet(id: Str, text: Str, authorId: Option<Str>)

  /** A reply tweet: the tweet it answers and its text. */
  datatype TweetReply = TweetReply(inReplyTo: Str, text: Str)

  /** The ids recorded, the replies that went out, and how many mentions were looked at. */
  datatype TwitterPoll = TwitterPoll(processed: set<Str>, replies: seq<TweetReply>, examined: nat)

  /** A poll stops once this many replies went out. */
  const TwitterReplyCap: nat := 3

  predicate TwitterReadable(settings: Config.Settings)
  {
    NonEmpty(settings.twitterApiKey) && NonEmpty(settings.twitterAccessToken)
  }

  /** `users.get(tweet.author_id || "") || "friend"`. */
  function TwitterUsername(users: map<Str, Str>, authorId: Option<Str>): (r: Str)
    ensures Truthy(authorId) && authorId.value in users && |users[authorId.value]| > 0 ==> r == users[authorId.value]
    ensures !Truthy(authorId) && [] in users && |users[[]]| > 0 ==> r == users[[]]
    ensures var key := if Truthy(authorId) then authorId.value else [];
            key !in users || users[key] == [] ==> r == Lit("friend")
    ensures |r| > 0
  {
    var key := if Truthy(authorId) then authorId.value else [];
    if key in users && |users[key]| > 0 then users[key] else Lit("friend")
  }

  /** On Twitter the username is never empty, so every reply there addresses an "@" handle, even "@friend". */
  lemma TwitterHandleIsMention(users: map<Str, Str>, authorId: Option<Str>)
    ensures var h := Handle(Some(TwitterUsername(users, authorId)));
            |h| > 1 && h[0] == 0x40
  {
  }

  /** What the classifier answers to each mention, addressed by its author's username. */
  function TweetAnswers(tweets: seq<Tweet>, users: map<Str, Str>, draws: seq<bool>): (r: seq<Option<Str>>)
    requires |tweets| <= |draws|
    ensures |r| == |tweets|
    ensures forall m :: 0 <= m < |tweets| ==>
              r[m] == MentionReply(tweets[m].text, Some(TwitterUsername(users, tweets[m].authorId)), draws[m])
  {
    seq(|tweets|, m requires 0 <= m < |tweets| =>
      MentionReply(tweets[m].text, Some(TwitterUsername(users, tweets[m].authorId)), draws[m]))
  }

  ghost function TweetIds(tweets: seq<Tweet>, n: nat): set<Str>
    requires n <= |tweets|
  {
    if n == 0 then {} else TweetIds(tweets, n - 1) + {tweets[n - 1].id}
  }

  ghost predicate FreshTweet(processed: set<Str>, tweets: seq<Tweet>, m: nat)
    requires m < |tweets|
  {
    tweets[m].id !in processed + TweetIds(tweets, m)
  }

  /** `reply` went out as the answer to mention `m`. */
  ghost predicate AnswersTweet(tweets: seq<Tweet>, answers: seq<Option<Str>>, delivered: seq<bool>,
                               m: nat, reply: TweetReply)
    requires m < |tweets| && m < |answers| && m < |delivered|
  {
    && delivered[m]
    && reply.inReplyTo == tweets[m].id
    && answers[m] == Some(reply.text)
  }

  /**
   One poll. Nothing happens without the API key and access token, or when the
   timeline request fails or returns no tweets (`timeline` is `None`); otherwise
   the mentions are answered as `AnswerTweets` describes.
   */
  method PollTwitter(settings: Config.Settings, processed: set<Str>, timeline: Option<seq<Tweet>>,
                     users: map<Str, Str>, draws: seq<bool>, delivered: seq<bool>)
    returns (run: TwitterPoll, ghost sources: seq<nat>)
    requires timeline.Some? ==> |draws| >= |timeline.value| && |delivered| >= |timeline.value|
    ensures !TwitterReadable(settings) || timeline.None? ==> run == TwitterPoll(processed, [], 0)
    ensures processed <= run.processed
    ensures |run.replies| <= TwitterReplyCap
    ensures forall j :: 0 <= j < |run.replies| ==> run.replies[j].inReplyTo in run.processed - processed
    ensures forall a, b :: 0 <= a < b < |run.replies| ==> run.replies[a].inReplyTo != run.replies[b].inReplyTo
    ensures TwitterReadable(settings) && timeline.Some? ==>
              var tweets := timeline.value;
              var answers := TweetAnswers(tweets, users, draws);
              && run.examined <= |tweets|
              && (run.examined < |tweets| ==> |run.replies| == TwitterReplyCap)
              && |sources| == |run.replies|
              && (|run.replies| == TwitterReplyCap ==> run.examined == sources[TwitterReplyCap - 1] + 1)
              && (forall a, b :: 0 <= a < b < |sources| ==> sources[a] < sources[b])
              && run.processed == processed + TweetIds(tweets, run.examined)
              && (forall j :: 0 <= j < |run.replies| ==>
                    sources[j] < run.examined && FreshTweet(processed, tweets, sources[j])
                    && AnswersTweet(tweets, answers, delivered, sources[j], run.replies[j]))
              && (forall m :: 0 <= m < run.examined && FreshTweet(processed, tweets, m) && answers[m].Some? && delivered[m]
                    ==> m in sources)
  {
    if !TwitterReadable(settings) || timeline.None? {
      return TwitterPoll(processed, [], 0), [];
    }
    var tweets := timeline.value;
    run, sources := AnswerTweets(processed, tweets, TweetAnswers(tweets, users, draws), delivered);
  }

  /**
   The Twitter loop after its first `i` mentions: the ids seen so far are recorded,
   and `replies` answer, in timeline order, exactly the new mentions whose reply went
   out; `sources[j]` is the mention that reply `j` answers.
   */
  ghost predicate TweetsAnswered(processed: set<Str>, tweets: seq<Tweet>, answers: seq<Option<Str>>,
                                 delivered: seq<bool>, i: nat, seen: set<Str>,
                                 replies: seq<TweetReply>, sources: seq<nat>)
    requires i <= |tweets| && |tweets| == |answers| && |tweets| <= |delivered|
  {
    && seen == processed + TweetIds(tweets, i)
    && |sources| == |replies|
    && (forall a, b :: 0 <= a < b < |sources| ==> sources[a] < sources[b])
    && (forall j :: 0 <= j < |replies| ==> replies[j].inReplyTo in seen - processed)
    && (forall a, b :: 0 <= a < b < |replies| ==> replies[a].inReplyTo != replies[b].inReplyTo)
    && (forall j :: 0 <= j < |replies| ==>
          sources[j] < i && FreshTweet(processed, tweets, sources[j])
          && AnswersTweet(tweets, answers, delivered, sources[j], replies[j]))
    && (forall m :: 0 <= m < i && FreshTweet(processed, tweets, m) && answers[m].Some? && delivered[m]
          ==> m in sources)
  }

  /**
   Mention `i` of the Twitter loop: a new id is recorded before its reply is
   generated, and the reply is kept when there is one and it went out.
   */
  method AnswerTweet(processed: set<Str>, tweets: seq<Tweet>, answers: seq<Option<Str>>, delivered: seq<bool>,
                     i: nat, seen: set<Str>, replies: seq<TweetReply>, ghost sources: seq<nat>)
    returns (seen': set<Str>, replies': seq<TweetReply>, ghost sources': seq<nat>)
    requires i < |tweets| && |tweets| == |answers| && |tweets| <= |delivered|
    requires TweetsAnswered(processed, tweets, answers, delivered, i, seen, replies, sources)
    ensures TweetsAnswered(processed, tweets, answers, delivered, i + 1, seen', replies', sources')
    ensures |replies| <= |replies'| <= |replies| + 1
    ensures |replies'| == |replies| + 1 ==> sources'[|replies|] == i
  {
    seen', replies', sources' := seen, replies, sources;
    var tweet := tweets[i];
    assert TweetIds(tweets, i + 1) == TweetIds(tweets, i) + {tweet.id};
    assert FreshTweet(processed, tweets, i) <==> tweet.id !in seen;
    if tweet.id !in seen {
      seen' := seen + {tweet.id};
      var reply := answers[i];
      if reply.Some? && delivered[i] {
        replies' := replies + [TweetReply(tweet.id, reply.value)];
        sources' := sources + [i];
      }
    }
  }

  /**
   The loop over the mentions of a poll. Each new tweet id is recorded before its
   reply is generated, whatever comes of it; `delivered[m]` says whether the reply
   call for mention `m` succeeded. A failed reply does not count, and the loop
   stops right after the third reply that went out.
   */
  method AnswerTweets(processed: set<Str>, tweets: seq<Tweet>, answers: seq<Option<Str>>, delivered: seq<bool>)
    returns (run: TwitterPoll, ghost sources: seq<nat>)
    requires |tweets| == |answers| && |tweets| <= |delivered|
    ensures processed <= run.processed
    ensures run.examined <= |tweets|
    ensures |run.replies| <= TwitterReplyCap
    ensures run.examined < |tweets| ==> |run.replies| == TwitterReplyCap
    ensures |sources| == |run.replies|
    ensures |run.replies| == TwitterReplyCap ==> run.examined == sources[TwitterReplyCap - 1] + 1
    ensures forall a, b :: 0 <= a < b < |sources| ==> sources[a] < sources[b]
    ensures run.processed == processed + TweetIds(tweets, run.examined)
    ensures forall j :: 0 <= j < |run.replies| ==> run.replies[j].inReplyTo in run.processed - processed
    ensures forall a, b :: 0 <= a < b < |run.replies| ==> run.replies[a].inReplyTo != run.replies[b].inReplyTo
    ensures forall j :: 0 <= j < |run.replies| ==>
              sources[j] < run.examined && FreshTweet(processed, tweets, sources[j])
              && AnswersTweet(tweets, answers, delivered, sources[j], run.replies[j])
    ensures forall m :: 0 <= m < run.examined && FreshTweet(processed, tweets, m) && answers[m].Some? && delivered[m]
              ==> m in sources
  {
    var seen := processed;
    var replies: seq<TweetReply> := [];
    sources := [];
    var i := 0;
    while i < |tweets| && |replies| < TwitterReplyCap
      invariant 0 <= i <= |tweets|
      invariant |replies| <= TwitterReplyCap
      invariant TweetsAnswered(processed, tweets, answers, delivered, i, seen, replies, sources)
      invariant |replies| == TwitterReplyCap ==> i == sources[TwitterReplyCap - 1] + 1
    {
      seen, replies, sources := AnswerTweet(processed, tweets, answers, delivered, i, seen, replies, sources);
      i := i + 1;
    }
    run := TwitterPoll(seen, replies, i);
  }

  // ===========================================================================
  // Collector thank-you (`thankCollector`)
  // ===========================================================================

  function Min(a: nat, b: nat): nat
  {
    if a <= b then a else b
  }

  /** `${collector.slice(0, 6)}...${collector.slice(-4)}`. */
  function ShortAddress(collector: Str): (r: Str)
    ensures |collector| >= 10 ==> r == collector[..6] + Lit("...") + collector[|collector| - 4..]
    ensures |r| == Min(|collector|, 6) + 3 + Min(|collector|, 4)
  {
    Slice(collector, 0, 6) + Lit("...") + SliceFrom(collector, -4)
  }

  /** A 42-character address shows as "0x", its next four characters, "..." and its last four. */
  lemma ShortAddressOfAccount(address: Str)
    requires |address| == 42
    ensures |ShortAddress(address)| == 13
    ensures ShortAddress(address)[..6] == address[..6]
    ensures ShortAddress(address)[9..] == address[38..]
  {
  }

  /** The five thank-you messages for a collector and a token id. */
  function ThankYouMessage(short: Str, tokenId: nat, pick: nat): Str
    requires pick < 5
  {
    var id := NatToDecimal(tokenId);
    if pick == 0 then
      FoldedHands + Lit(" Thank you, ") + short + Lit("! You just collected PixelOracle #") + id
      + Lit(". The Oracle sees your vision. ✨")
    else if pick == 1 then
      Lit("✨ A new guardian emerges! ") + short + Lit(" has claimed PixelOracle #") + id
      + Lit(". The Oracle is grateful. ") + CrystalBall
    else if pick == 2 then
      CrystalBall + Lit(" The Oracle acknowledges ") + short + Lit(" — collector of #") + id
      + Lit(". May this art illuminate your path. ") + Dizzy
    else if pick == 3 then
      GemStone + Lit(" Welcome to the collection, ") + short + Lit("! PixelOracle #") + id
      + Lit(" now resides with you. ") + ArtistPalette
    else
      GlowingStar + Lit(" ") + short + Lit(" has joined the Oracle's circle by collecting #") + id
      + Lit(". Art finds its destined keeper. ") + FoldedHands
  }

  /** "\n\n🖼️ " */
  const ArtworkLinkLead: Str := Lit("\n\n") + FramedPicture + Social.EmojiPresentation + Lit(" ")

  datatype ThankYou = ThankYou(post: Str, farcaster: Social.FarcasterRun, twitter: Social.TwitterRun)

  /**
   `thankCollector`: the message `pick` (random) for the shortened address,
   then the token's OpenSea link; the same text goes to Farcaster without an
   image and to Twitter. Building the link throws when no contract is configured,
   and then nothing is posted.
   */
  function ThankCollector(settings: Config.Settings, collector: Str, tokenId: nat, pick: nat,
                          castReply: Social.CastReply, tweetReply: Result<Str>): (r: Result<ThankYou>)
    requires pick < 5
    ensures r.Ok? <==> |settings.contractAddress| > 0
    ensures r.Err? ==> r.error == Blockchain.MissingContractError
    ensures r.Ok? ==>
              var url := Blockchain.OpenSeaUrl(settings.network, settings.contractAddress, tokenId).value;
              && r.value.post == ThankYouMessage(ShortAddress(collector), tokenId, pick) + ArtworkLinkLead + url
              && r.value.farcaster == Social.PostToFarcaster(settings, r.value.post, None, castReply)
              && r.value.twitter == Social.PostToTwitter(settings, r.value.post, tweetReply)
    ensures r.Ok? ==> r.value.farcaster.request.Some? ==> r.value.farcaster.request.value.embeds == []
  {
    var url :- Blockchain.OpenSeaUrl(settings.network, settings.contractAddress, tokenId);
    var post := ThankYouMessage(ShortAddress(collector), tokenId, pick) + ArtworkLinkLead + url;
    Ok(ThankYou(post, Social.PostToFarcaster(settings, post, None, castReply), Social.PostToTwitter(settings, post, tweetReply)))
  }

  // ===========================================================================
  // Listener timers (`startMentionListener`, `stopListeners`)
  // ===========================================================================

  const FarcasterPollMs: nat := 2 * 60 * 1000
  const TwitterPollMs: nat := 8 * 60 * 60 * 1000

  /** The two interval timers, by their period; `None` when not running. */
  datatype Listeners = Listeners(farcasterEvery: Option<nat>, twitterEvery: Option<nat>)

  const Stopped: Listeners := Listeners(None, None)

  /** The two mention polls. */
  datatype MentionPoll = FarcasterMentions | TwitterMentions

  /** The timers left running by `startMentionListener`, and the polls it ran right away, in order. */
  datatype ListenerStart = ListenerStart(timers: Listeners, initialPolls: seq<MentionPoll>)

  /**
   `startMentionListener`: a Farcaster poll every two minutes when both Neynar
   credentials are set, and a Twitter poll every eight hours when the API key and
   access token are set. Each listener it starts also polls once right after its
   timer is set, Farcaster's before Twitter's.
   */
  function StartMentionListener(settings: Config.Settings): (r: ListenerStart)
    ensures r.timers.farcasterEvery.Some? <==> Social.FarcasterConfigured(settings)
    ensures r.timers.twitterEvery.Some? <==> TwitterReadable(settings)
    ensures r.timers.farcasterEvery.Some? ==> r.timers.farcasterEvery.value == 120000
    ensures r.timers.twitterEvery.Some? ==> r.timers.twitterEvery.value == 28800000
    ensures FarcasterMentions in r.initialPolls <==> r.timers.farcasterEvery.Some?
    ensures TwitterMentions in r.initialPolls <==> r.timers.twitterEvery.Some?
    ensures forall a, b :: 0 <= a < b < |r.initialPolls| ==>
              r.initialPolls[a] == FarcasterMentions && r.initialPolls[b] == TwitterMentions
  {
    var farcaster := Social.FarcasterConfigured(settings);
    var twitter := TwitterReadable(settings);
    ListenerStart(
      Listeners(if farcaster then Some(FarcasterPollMs) else None,
                if twitter then Some(TwitterPollMs) else None),
      (if farcaster then [FarcasterMentions] else []) + (if twitter then [TwitterMentions] else []))
  }

  /** `stopListeners`: clears whichever timers run. */
  function StopListeners(listeners: Listeners): (r: Listeners)
    ensures r.farcasterEvery.None? && r.twitterEvery.None?
  {
    Listeners(None, None)
  }

  /** The Twitter listener asks for fewer credentials than posting a tweet does. */
  lemma TwitterListenerNeedsLess(settings: Config.Settings)
    ensures Social.TwitterConfigured(settings) ==> StartMentionListener(settings).timers.twitterEvery.Some?
  {
  }
}
