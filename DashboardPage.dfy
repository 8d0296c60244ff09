/** The dashboard page: the tweet list it hands to the board, newly
    generated tweets put in front of it, and the summary counts read from
    the user's status rows. */
module DashboardPage {
  import opened Wrappers
  import opened Seqs
  import opened IdLists
  import opened TweetBoard

  /** `handleNewTweets`: `[...newTweets, ...prev]` */
  function HandleNewTweets(prev: seq<TweetRow>, newTweets: seq<TweetRow>): (r: seq<TweetRow>)
    ensures |r| == |newTweets| + |prev|
    ensures r[..|newTweets|] == newTweets && r[|newTweets|..] == prev
    ensures forall t :: t in r <==> t in newTweets || t in prev
  {
    newTweets + prev
  }

  /** New tweets add their own count to every column. */
  lemma NewTweetsColumns(prev: seq<TweetRow>, newTweets: seq<TweetRow>, status: string)
    ensures |StatusTweets(HandleNewTweets(prev, newTweets), status)| ==
            |StatusTweets(newTweets, status)| + |StatusTweets(prev, status)|
  {
    StatusTweetsAppend(newTweets, prev, status);
  }

  /** An update of a tweet that was just added leaves the earlier list as
      it was, when no earlier tweet has its id. */
  lemma UpdateNewTweet(prev: seq<TweetRow>, newTweets: seq<TweetRow>, updated: TweetRow)
    requires forall t :: t in prev ==> t.id != updated.id
    ensures var r := ReplaceById(HandleNewTweets(prev, newTweets), TweetId, updated);
      r == ReplaceById(newTweets, TweetId, updated) + prev
  {
    var r := ReplaceById(HandleNewTweets(prev, newTweets), TweetId, updated);
    var n := |newTweets|;
    forall i | n <= i < |r| ensures r[i] == prev[i - n] {
      assert HandleNewTweets(prev, newTweets)[i] == prev[i - n];
      assert prev[i - n] in prev;
    }
    assert r == ReplaceById(newTweets, TweetId, updated) + prev by {
      assert forall i :: 0 <= i < |r| ==> r[i] == (ReplaceById(newTweets, TweetId, updated) + prev)[i];
    }
  }

  /** A removed id is gone from the whole list, new tweets and earlier
      ones alike. */
  lemma DeleteAfterNewTweets(prev: seq<TweetRow>, newTweets: seq<TweetRow>, id: string)
    ensures RemoveById(HandleNewTweets(prev, newTweets), TweetId, id)
            == RemoveById(newTweets, TweetId, id) + RemoveById(prev, TweetId, id)
  {
    RemoveAppend(newTweets, prev, TweetId, id);
  }

  /** A row of the `status, created_at` query. */
  datatype StatusRow = StatusRow(status: string, createdAt: string)

  datatype DashboardStats = DashboardStats(totalTweets: nat, publishedTweets: nat, scheduledTweets: nat,
                                           lastActivity: Option<string>)

  const InitialStats := DashboardStats(0, 0, 0, None)

  /** `fetchStats`: a failed query keeps the previous counts; a missing
      result counts as no rows. 'Scheduled' counts the approved rows, and
      the last activity is the first row's creation time (an empty one is
      null). */
  function FetchStats(previous: DashboardStats, query: Result<Option<seq<StatusRow>>, string>): (r: DashboardStats)
    ensures query.Err? ==> r == previous
    ensures query.Ok? && query.value.None? ==> r == InitialStats
    ensures query.Ok? && query.value.Some? ==>
      && r.totalTweets == |query.value.value|
      && r.publishedTweets == Count(query.value.value, (t: StatusRow) => t.status == Published)
      && r.scheduledTweets == Count(query.value.value, (t: StatusRow) => t.status == Approved)
    ensures query.Ok? ==> r.publishedTweets + r.scheduledTweets <= r.totalTweets
    ensures query.Ok? ==> (r.lastActivity.Some? <==>
      query.value.Some? && |query.value.value| > 0 && query.value.value[0].createdAt != "")
    ensures query.Ok? && r.lastActivity.Some? ==> r.lastActivity.value == query.value.value[0].createdAt
  {
    match query
    case Err(_) => previous
    case Ok(None) => InitialStats
    case Ok(Some(rows)) =>
      var published := Filter(rows, (t: StatusRow) => t.status == Published);
      var scheduled := Filter(rows, (t: StatusRow) => t.status == Approved);
      PublishedApprovedDisjoint(rows);
      DashboardStats(|rows|, |published|, |scheduled|,
                     if |rows| > 0 && rows[0].createdAt != "" then Some(rows[0].createdAt) else None)
  }

  /** No row is both published and approved, so the two counts together
      stay within the total. */
  lemma {:induction false} PublishedApprovedDisjoint(rows: seq<StatusRow>)
    ensures |Filter(rows, (t: StatusRow) => t.status == Published)| + |Filter(rows, (t: StatusRow) => t.status == Approved)|
            <= |rows|
  {
    if rows != [] {
      PublishedApprovedDisjoint(rows[1..]);
      assert Published != Approved by {
        assert Published[0] != Approved[0];
      }
    }
  }
}
