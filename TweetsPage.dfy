/** The tweets page: the list of the user's tweets it hands to the board,
    the counts above the board, and the two list updates the board
    reports back (an updated row replaces the rows with its id, a deleted
    id is dropped). */
module TweetsPage {
  import opened Seqs
  import opened IdLists
  import opened TweetBoard

  datatype TweetStats = TweetStats(total: nat, generated: nat, inReview: nat, approved: nat, published: nat)

  /** `getTweetStats`: the list's length and the size of each column. */
  function GetTweetStats(tweets: seq<TweetRow>): (r: TweetStats)
    ensures r.total == |tweets|
    ensures r.generated == Count(tweets, (t: TweetRow) => t.status == Generated)
    ensures r.inReview == Count(tweets, (t: TweetRow) => t.status == InReview)
    ensures r.approved == Count(tweets, (t: TweetRow) => t.status == Approved)
    ensures r.published == Count(tweets, (t: TweetRow) => t.status == Published)
    ensures r.generated <= r.total && r.inReview <= r.total && r.approved <= r.total && r.published <= r.total
  {
    TweetStats(|tweets|, |StatusTweets(tweets, Generated)|, |StatusTweets(tweets, InReview)|,
               |StatusTweets(tweets, Approved)|, |StatusTweets(tweets, Published)|)
  }

  /** When every status is one of the four, the four counts add up to the
      total. */
  lemma StatsAddUp(tweets: seq<TweetRow>)
    requires forall t :: t in tweets ==> KnownStatus(t.status)
    ensures var s := GetTweetStats(tweets);
      s.generated + s.inReview + s.approved + s.published == s.total
  {
    ColumnsPartition(tweets);
  }

  /** A status change of a row whose id no other row has keeps the total
      and moves one count from the row's old column to its new one. */
  lemma StatusChangeStats(tweets: seq<TweetRow>, k: nat, status: string)
    requires k < |tweets| && forall i :: 0 <= i < |tweets| && i != k ==> tweets[i].id != tweets[k].id
    ensures var r := ReplaceById(tweets, TweetId, tweets[k].(status := status));
      && |r| == |tweets|
      && forall s :: |StatusTweets(r, s)| + (if tweets[k].status == s then 1 else 0)
                    == |StatusTweets(tweets, s)| + (if status == s then 1 else 0)
  {
    var u := tweets[k].(status := status);
    var r := ReplaceById(tweets, TweetId, u);
    var before, after := tweets[..k], tweets[k + 1..];
    assert r == before + [u] + after by {
      assert forall i :: 0 <= i < |r| ==> r[i] == (before + [u] + after)[i];
    }
    assert tweets == before + [tweets[k]] + after;
    forall s
      ensures |StatusTweets(r, s)| + (if tweets[k].status == s then 1 else 0)
              == |StatusTweets(tweets, s)| + (if status == s then 1 else 0)
    {
      StatusTweetsAppend(before + [u], after, s);
      StatusTweetsAppend(before, [u], s);
      StatusTweetsAppend(before + [tweets[k]], after, s);
      StatusTweetsAppend(before, [tweets[k]], s);
    }
  }

  /** Deleting an id lowers the total by the number of rows with it. */
  lemma DeleteStats(tweets: seq<TweetRow>, id: string)
    ensures GetTweetStats(RemoveById(tweets, TweetId, id)).total + CountId(tweets, TweetId, id)
            == GetTweetStats(tweets).total
  {
    RemoveCount(tweets, TweetId, id);
  }
}
