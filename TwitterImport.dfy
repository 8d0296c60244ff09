/** Choosing which of a user's fetched tweets become training examples:
    each tweet gets an engagement score, the ten best are kept, and as many
    of them are imported as the user has free slots (at most ten examples
    in all). Fetching the tweets, querying the stored examples and inserting
    the rows are done by the caller. */
module TwitterImport {
  import opened Wrappers
  import opened Seqs

  datatype PublicMetrics = PublicMetrics(retweetCount: int, likeCount: int, replyCount: int, quoteCount: int)

  datatype TwitterTweet = TwitterTweet(id: string, text: string, publicMetrics: PublicMetrics, createdAt: string)

  /** A fetched tweet together with its engagement score. */
  datatype RankedTweet = RankedTweet(tweet: TwitterTweet, engagementScore: int)

  /** The row inserted into the training examples. */
  datatype TrainingRow = TrainingRow(userId: string, tweetText: string)

  /** The refusals of the selection, with their HTTP statuses. */
  datatype ImportError = NoTweetsFound | ExistingCheckFailed | NoAvailableSlots
  {
    function Status(): int
    {
      match this
      case NoTweetsFound => 404
      case ExistingCheckFailed => 500
      case NoAvailableSlots => 400
    }
  }

  datatype ImportPlan = ImportPlan(availableSlots: int, imported: seq<RankedTweet>, rows: seq<TrainingRow>)

  const MaxExamples := 10

  /** A like counts once, a retweet three times, a reply or a quote twice. */
  function EngagementScore(m: PublicMetrics): (r: int)
    ensures m.likeCount >= 0 && m.retweetCount >= 0 && m.replyCount >= 0 && m.quoteCount >= 0 ==> r >= 0
  {
    m.likeCount * 1 + m.retweetCount * 3 + m.replyCount * 2 + m.quoteCount * 2
  }

  /** One more like, retweet, reply or quote raises the score by its weight. */
  lemma EngagementWeights(m: PublicMetrics)
    ensures EngagementScore(m.(likeCount := m.likeCount + 1)) == EngagementScore(m) + 1
    ensures EngagementScore(m.(retweetCount := m.retweetCount + 1)) == EngagementScore(m) + 3
    ensures EngagementScore(m.(replyCount := m.replyCount + 1)) == EngagementScore(m) + 2
    ensures EngagementScore(m.(quoteCount := m.quoteCount + 1)) == EngagementScore(m) + 2
  {
  }

  function Score(t: RankedTweet): int { t.engagementScore }

  /** `tweets.map(tweet => ({ ...tweet, engagementScore }))` */
  function WithEngagement(tweets: seq<TwitterTweet>): (r: seq<RankedTweet>)
    ensures |r| == |tweets|
    ensures forall i :: 0 <= i < |r| ==> r[i].tweet == tweets[i] && r[i].engagementScore == EngagementScore(tweets[i].publicMetrics)
  {
    seq(|tweets|, i requires 0 <= i < |tweets| => RankedTweet(tweets[i], EngagementScore(tweets[i].publicMetrics)))
  }

  /** The stable sort by non-increasing engagement score, then the first ten. */
  function TopTweets(tweets: seq<TwitterTweet>): (r: seq<RankedTweet>)
    ensures |r| == if |tweets| < MaxExamples then |tweets| else MaxExamples
    ensures SortedDesc(r, Score)
    ensures multiset(r) <= multiset(WithEngagement(tweets))
  {
    var sorted := SortByKeyDesc(WithEngagement(tweets), Score);
    SortIsSorted(WithEngagement(tweets), Score);
    TakeMultiset(sorted, MaxExamples);
    Take(sorted, MaxExamples)
  }

  lemma TakeMultiset<T>(s: seq<T>, n: nat)
    ensures multiset(Take(s, n)) <= multiset(s)
  {
    if n < |s| {
      assert s == s[..n] + s[n..];
    }
  }

  /** The ten kept tweets are the best: every scored tweet left out has a
      score no higher than any kept one. */
  lemma TopTweetsAreBest(tweets: seq<TwitterTweet>, x: RankedTweet)
    requires x in multiset(WithEngagement(tweets)) - multiset(TopTweets(tweets))
    ensures forall i :: 0 <= i < |TopTweets(tweets)| ==> Score(x) <= Score(TopTweets(tweets)[i])
  {
    var all := WithEngagement(tweets);
    var sorted := SortByKeyDesc(all, Score);
    SortIsSorted(all, Score);
    var top := TopTweets(tweets);
    assert top == Take(sorted, MaxExamples);
    if |sorted| > MaxExamples {
      var rest := sorted[MaxExamples..];
      assert sorted == top + rest;
      assert multiset(all) == multiset(top) + multiset(rest);
      assert x in multiset(rest);
      var j :| 0 <= j < |rest| && rest[j] == x;
      assert sorted[MaxExamples + j] == x;
    } else {
      // all fetched tweets are kept, so none is left out
      assert false;
    }
  }

  /** `Math.max(0, 10 - (existingExamples?.length || 0))`: a missing list
      counts as no examples. */
  function AvailableSlots(existing: Option<nat>): (r: int)
    ensures 0 <= r <= MaxExamples
    ensures existing.None? ==> r == MaxExamples
    ensures existing.Some? && existing.value <= MaxExamples ==> r == MaxExamples - existing.value
    ensures existing.Some? && existing.value >= MaxExamples ==> r == 0
  {
    var count := if existing.Some? then existing.value else 0;
    if MaxExamples - count > 0 then MaxExamples - count else 0
  }

  /** The selection between fetching the tweets and inserting the rows.
      `existing` is the answer of the query for the user's stored training
      examples: an error, or the length of the returned list (None when no
      list came back). No fetched tweet is a 404, a failed query a 500, no
      slot to fill a 400; otherwise the first `availableSlots` of the top
      tweets are inserted, each as a row of the requesting user with the
      tweet's text. */
  function SelectForImport(userId: string, tweets: seq<TwitterTweet>, existing: Result<Option<nat>, string>)
    : (r: Result<ImportPlan, ImportError>)
    ensures r == Err(NoTweetsFound) <==> |tweets| == 0
    ensures r == Err(ExistingCheckFailed) <==> |tweets| > 0 && existing.Err?
    ensures r == Err(NoAvailableSlots) <==> |tweets| > 0 && existing.Ok? && AvailableSlots(existing.value) == 0
    ensures r.Ok? ==> existing.Ok? && r.value.availableSlots == AvailableSlots(existing.value)
    ensures r.Ok? ==> 0 < |r.value.imported| == Min(AvailableSlots(existing.value), |TopTweets(tweets)|)
    ensures r.Ok? ==> r.value.imported == TopTweets(tweets)[..|r.value.imported|]
    ensures r.Ok? ==> |r.value.rows| == |r.value.imported|
    ensures r.Ok? ==> forall i :: 0 <= i < |r.value.rows| ==>
      r.value.rows[i] == TrainingRow(userId, r.value.imported[i].tweet.text)
  {
    if |tweets| == 0 then Err(NoTweetsFound)
    else if existing.Err? then Err(ExistingCheckFailed)
    else
      var top := TopTweets(tweets);
      var slots := AvailableSlots(existing.value);
      var toImport := Take(top, slots);
      if |toImport| == 0 then Err(NoAvailableSlots)
      else
        var rows := seq(|toImport|, i requires 0 <= i < |toImport| => TrainingRow(userId, toImport[i].tweet.text));
        Ok(ImportPlan(slots, toImport, rows))
  }

  function Min(x: int, y: int): int { if x <= y then x else y }

  /** Importing never takes a user past ten examples. */
  lemma ImportKeepsCap(userId: string, tweets: seq<TwitterTweet>, existing: nat)
    requires existing <= MaxExamples
    requires SelectForImport(userId, tweets, Ok(Some(existing))).Ok?
    ensures existing + |SelectForImport(userId, tweets, Ok(Some(existing))).value.imported| <= MaxExamples
  {
  }
}
