/** The tweet board: four columns, one per status, the actions each card
    offers for its status, and the handlers that change a tweet's status,
    schedule it, edit or regenerate its content and delete it. The board
    shows the list its page keeps; every handler writes a row through the
    database and hands the stored row back to the page, which replaces the
    row with that id (or, for a delete, drops it). The class `Board` holds
    that list together with the board's own state. */
module TweetBoard {
  import opened Wrappers
  import opened Seqs
  import opened IdLists

  const Generated := "generated"
  const InReview := "in_review"
  const Approved := "approved"
  const Published := "published"

  /** The columns, in the order the board shows them. */
  const Statuses: seq<string> := [Generated, InReview, Approved, Published]

  predicate KnownStatus(s: string)
  {
    s == Generated || s == InReview || s == Approved || s == Published
  }

  lemma StatusesDistinct()
    ensures forall j, k :: 0 <= j < k < |Statuses| ==> Statuses[j] != Statuses[k]
    ensures forall s :: s in Statuses <==> KnownStatus(s)
  {
    assert Generated[0] != InReview[0] && Generated[0] != Approved[0] && Generated[0] != Published[0];
    assert InReview[0] != Approved[0] && InReview[0] != Published[0] && Approved[0] != Published[0];
  }

  /** A row of the tweets table as the board reads it. */
  datatype TweetRow = TweetRow(id: string, content: string, status: string, createdAt: string,
                               scheduledTime: Option<string>, ideaId: Option<string>)

  function TweetId(t: TweetRow): string { t.id }

  /** `getStatusTweets`: the tweets of one column, in list order. */
  function StatusTweets(tweets: seq<TweetRow>, status: string): (r: seq<TweetRow>)
    ensures forall t :: t in r <==> t in tweets && t.status == status
    ensures IsSubsequence(r, tweets)
  {
    FilterIsSubsequence(tweets, (t: TweetRow) => t.status == status);
    Filter(tweets, (t: TweetRow) => t.status == status)
  }

  /** A column of a joined list is the two columns joined. */
  lemma StatusTweetsAppend(a: seq<TweetRow>, b: seq<TweetRow>, status: string)
    ensures StatusTweets(a + b, status) == StatusTweets(a, status) + StatusTweets(b, status)
  {
    FilterAppend(a, b, (t: TweetRow) => t.status == status);
  }

  /** The four column counts shown on the board, added up. */
  function ColumnTotal(tweets: seq<TweetRow>): nat
  {
    |StatusTweets(tweets, Generated)| + |StatusTweets(tweets, InReview)|
    + |StatusTweets(tweets, Approved)| + |StatusTweets(tweets, Published)|
  }

  /** Every tweet with a known status is in exactly one column, and when
      every status is known the columns hold the whole list between them. */
  lemma {:induction false} ColumnsPartition(tweets: seq<TweetRow>)
    ensures forall t, j :: t in tweets && KnownStatus(t.status) && 0 <= j < |Statuses| ==>
      (t in StatusTweets(tweets, Statuses[j]) <==> t.status == Statuses[j])
    ensures (forall t :: t in tweets ==> KnownStatus(t.status)) ==> ColumnTotal(tweets) == |tweets|
  {
    if tweets != [] {
      ColumnsPartition(tweets[1..]);
      var t := tweets[0];
      forall s ensures StatusTweets(tweets, s) == (if t.status == s then [t] else []) + StatusTweets(tweets[1..], s) {
      }
      if forall u :: u in tweets ==> KnownStatus(u.status) {
        assert forall u :: u in tweets[1..] ==> u in tweets;
        assert KnownStatus(t.status);
      }
    }
  }

  /** What a card offers. */
  datatype Action = EditContent | Regenerate | Schedule | Delete | MoveTo(status: string)

  /** The buttons of a tweet's card; the status moves of a generated tweet
      are hidden while its content is being edited. */
  function Offered(t: TweetRow, isEditing: bool): (r: set<Action>)
    ensures Delete in r
    ensures forall a :: a in r && a.MoveTo? ==> KnownStatus(a.status) && a.status != t.status
  {
    (if t.status == Generated then {EditContent, Regenerate} else {})
    + (if t.status == Approved then {Schedule} else {})
    + {Delete}
    + (if t.status == Generated && !isEditing then {MoveTo(InReview), MoveTo(Approved)} else {})
    + (if t.status == InReview then {MoveTo(Generated), MoveTo(Approved)} else {})
    + (if t.status == Approved then {MoveTo(Published)} else {})
  }

  /** The position of a known status along the board, -1 otherwise. */
  function Rank(s: string): int
  {
    if s == Generated then 0 else if s == InReview then 1 else if s == Approved then 2
    else if s == Published then 3 else -1
  }

  /** The moves of the board: one column on, generated straight to
      approved, and in review back to generated. */
  predicate Move(from: string, to: string)
  {
    && KnownStatus(from) && KnownStatus(to)
    && (Rank(to) == Rank(from) + 1 || (from == Generated && to == Approved) || (from == InReview && to == Generated))
  }

  /** A card offers exactly the board's moves from its status (none while a
      generated tweet is being edited). */
  lemma OfferedMoves(t: TweetRow, isEditing: bool, s: string)
    ensures MoveTo(s) in Offered(t, isEditing) <==> Move(t.status, s) && !(t.status == Generated && isEditing)
  {
    StatusesDistinct();
    assert Statuses[0] == Generated && Statuses[1] == InReview && Statuses[2] == Approved && Statuses[3] == Published;
  }

  /** Delete is on every card; editing and regenerating only on generated
      tweets; scheduling only on approved ones. */
  lemma OfferedActions(t: TweetRow, isEditing: bool)
    ensures Delete in Offered(t, isEditing)
    ensures EditContent in Offered(t, isEditing) <==> t.status == Generated
    ensures Regenerate in Offered(t, isEditing) <==> t.status == Generated
    ensures Schedule in Offered(t, isEditing) <==> t.status == Approved
  {
  }

  /** A published tweet offers nothing but delete. */
  lemma PublishedOffersDelete(t: TweetRow, isEditing: bool)
    requires t.status == Published
    ensures Offered(t, isEditing) == {Delete}
  {
    StatusesDistinct();
    assert Statuses[0] == Generated && Statuses[1] == InReview && Statuses[2] == Approved && Statuses[3] == Published;
  }

  /** Every move changes the status, and the only move back is from review
      to generated. */
  lemma MovesForward(from: string, to: string)
    requires Move(from, to)
    ensures from != to
    ensures Rank(to) < Rank(from) ==> from == InReview && to == Generated
  {
  }

  /** From any status a tweet can reach published in at most two moves. */
  lemma PublishedReachable(from: string)
    requires KnownStatus(from) && from != Published
    ensures Move(from, Published) || (Move(from, Approved) && Move(Approved, Published))
  {
  }

  /** `.eq('id', id).single()`: the row with the id, if there is one. */
  function FindById(tweets: seq<TweetRow>, id: string): (r: Option<TweetRow>)
    ensures r.Some? ==> r.value in tweets && r.value.id == id
    ensures r.None? <==> forall t :: t in tweets ==> t.id != id
  {
    if tweets == [] then None
    else if tweets[0].id == id then Some(tweets[0])
    else FindById(tweets[1..], id)
  }

  /** Writing a changed row back: the row with the id moves to the column
      of its new status and every other row keeps its place and column. */
  lemma WriteBackColumns(tweets: seq<TweetRow>, row: TweetRow, status: string)
    ensures var r := ReplaceById(tweets, TweetId, row.(status := status));
      && |r| == |tweets|
      && ((exists t :: t in tweets && t.id == row.id) ==> row.(status := status) in StatusTweets(r, status))
    ensures var r := ReplaceById(tweets, TweetId, row.(status := status));
      forall s, t :: t in StatusTweets(r, s) && t.id == row.id ==> s == status
    ensures var r := ReplaceById(tweets, TweetId, row.(status := status));
      forall s, t: TweetRow :: t.id != row.id ==> (t in StatusTweets(r, s) <==> t in StatusTweets(tweets, s))
  {
    var u := row.(status := status);
    var r := ReplaceById(tweets, TweetId, u);
    ReplacePresent(tweets, TweetId, u);
    forall s, t: TweetRow | t.id != row.id && t in StatusTweets(tweets, s)
      ensures t in StatusTweets(r, s)
    {
      var i :| 0 <= i < |tweets| && tweets[i] == t;
      assert r[i] == t;
    }
    forall s, t: TweetRow | t.id != row.id && t in StatusTweets(r, s)
      ensures t in StatusTweets(tweets, s)
    {
      var i :| 0 <= i < |r| && r[i] == t;
      assert tweets[i] == t;
    }
    forall s, t | t in StatusTweets(r, s) && t.id == row.id
      ensures s == status
    {
      var i :| 0 <= i < |r| && r[i] == t;
    }
  }

  /** One tweet of the generator's answer (`ScoredTweet`, reduced to the
      fields the board reads). */
  datatype GeneratedTweet = GeneratedTweet(content: string, viralScore: int)

  /** The generator's answer (`TweetGenerationResponse`): an object holding
      the generated tweets, not an array. */
  datatype GenerationResponse = GenerationResponse(tweets: seq<GeneratedTweet>, totalGenerated: int)

  /** Reading `.length` of a value: an object without a `length` property
      gives `undefined` (None). */
  function LengthOf(response: GenerationResponse): Option<int>
  {
    None
  }

  /** JavaScript's `x > 0`, which is false when x is `undefined`. */
  predicate IsPositive(x: Option<int>)
  {
    x.Some? && x.value > 0
  }

  /** The regeneration guard as written holds for no answer of the
      generator, even one that holds tweets. */
  lemma GuardNeverHolds(response: GenerationResponse)
    ensures !IsPositive(LengthOf(response))
  {
  }

  /** An answer with one generated tweet, for which the guard as written
      is false while the intended guard holds. */
  lemma GuardMissesResults()
    ensures var response := GenerationResponse([GeneratedTweet("A regenerated tweet", 80)], 1);
      |response.tweets| > 0 && !IsPositive(LengthOf(response))
  {
  }

  /** `regenerateFeedback[tweet.id] || ''` */
  function FeedbackFor(feedback: map<string, string>, id: string): string
  {
    if id in feedback then feedback[id] else ""
  }

  class Board {
    /** The page's list, which the board shows. */
    var tweets: seq<TweetRow>
    /** The id of the tweet whose content is being edited. */
    var editingTweet: Option<string>
    var editContent: string
    /** The regeneration feedback typed on each card. */
    var feedback: map<string, string>

    constructor (tweets: seq<TweetRow>)
      ensures this.tweets == tweets && editingTweet.None? && editContent == "" && feedback == map[]
    {
      this.tweets := tweets;
      editingTweet := None;
      editContent := "";
      feedback := map[];
    }

    function IsEditing(t: TweetRow): bool
      reads this
    {
      editingTweet == Some(t.id)
    }

    /** `getStatusTweets` on the board's list. */
    function Column(status: string): (r: seq<TweetRow>)
      reads this
      ensures forall t :: t in r <==> t in tweets && t.status == status
    {
      StatusTweets(tweets, status)
    }

    /** `updateTweetStatus`. `stored` is the database's answer: the
        updated row, or None when the update fails (no row has the id, or
        the query errs). The stored row replaces the rows with its id and
        lands in the column of its new status; on failure nothing changes. */
    method SetStatus(id: string, newStatus: string, stored: Option<TweetRow>)
      requires stored.Some? ==> stored.value.id == id && stored.value.status == newStatus
      modifies this
      ensures stored.None? ==> tweets == old(tweets)
      ensures stored.Some? ==> tweets == ReplaceById(old(tweets), TweetId, stored.value)
      ensures stored.Some? && FindById(old(tweets), id).Some? ==>
        && stored.value in Column(newStatus)
        && forall s, t :: t in Column(s) && t.id == id ==> s == newStatus
      ensures editingTweet == old(editingTweet) && editContent == old(editContent) && feedback == old(feedback)
    {
      if stored.Some? {
        if FindById(tweets, id).Some? {
          SetStatusColumns(tweets, stored.value);
        }
        tweets := ReplaceById(tweets, TweetId, stored.value);
      }
    }

    /** `scheduleTweet`: the stored row has the scheduled time and the
        status 'approved'. The time is a parameter (the source takes the
        clock's time plus one hour); `stored` is the database's answer,
        None when the update fails, which changes nothing. */
    method ScheduleTweet(id: string, scheduledTime: string, stored: Option<TweetRow>)
      requires stored.Some? ==>
        stored.value.id == id && stored.value.scheduledTime == Some(scheduledTime) && stored.value.status == Approved
      modifies this
      ensures stored.None? ==> tweets == old(tweets)
      ensures stored.Some? ==> tweets == ReplaceById(old(tweets), TweetId, stored.value)
      ensures stored.Some? && FindById(old(tweets), id).Some? ==>
        exists t :: t in Column(Approved) && t.id == id && t.scheduledTime == Some(scheduledTime)
      ensures editingTweet == old(editingTweet) && editContent == old(editContent) && feedback == old(feedback)
    {
      if stored.Some? {
        ReplacePresent(tweets, TweetId, stored.value);
        tweets := ReplaceById(tweets, TweetId, stored.value);
        if FindById(old(tweets), id).Some? {
          assert stored.value in Column(Approved);
        }
      }
    }

    /** The edit button: edit this tweet, starting from its content. */
    method StartEdit(t: TweetRow)
      modifies this
      ensures editingTweet == Some(t.id) && editContent == t.content
      ensures tweets == old(tweets) && feedback == old(feedback)
    {
      editingTweet := Some(t.id);
      editContent := t.content;
    }

    method ChangeEditContent(text: string)
      modifies this
      ensures editContent == text
      ensures tweets == old(tweets) && editingTweet == old(editingTweet) && feedback == old(feedback)
    {
      editContent := text;
    }

    method CancelEdit()
      modifies this
      ensures editingTweet.None?
      ensures tweets == old(tweets) && editContent == old(editContent) && feedback == old(feedback)
    {
      editingTweet := None;
    }

    /** `updateTweetContent`. `stored` is the database's answer, None
        when the update fails. The stored row replaces the rows with its id
        and editing ends; on failure nothing changes and editing goes on. */
    method UpdateContent(id: string, newContent: string, stored: Option<TweetRow>)
      requires stored.Some? ==> stored.value.id == id && stored.value.content == newContent
      modifies this
      ensures stored.None? ==> tweets == old(tweets) && editingTweet == old(editingTweet)
      ensures stored.Some? ==> tweets == ReplaceById(old(tweets), TweetId, stored.value) && editingTweet.None?
      ensures stored.Some? && FindById(old(tweets), id).Some? ==>
        exists t :: t in tweets && t.id == id && t.content == newContent
      ensures editContent == old(editContent) && feedback == old(feedback)
    {
      if stored.Some? {
        ReplacePresent(tweets, TweetId, stored.value);
        tweets := ReplaceById(tweets, TweetId, stored.value);
        editingTweet := None;
      }
    }

    /** `handleFeedbackChange` */
    method SetFeedback(id: string, value: string)
      modifies this
      ensures feedback == old(feedback)[id := value]
      ensures tweets == old(tweets) && editingTweet == old(editingTweet) && editContent == old(editContent)
    {
      feedback := feedback[id := value];
    }

    /** `regenerateTweet` as written. The guard asks for the `length` of
        the generator's answer, which is an object and has none, so the
        guard is false for every answer: only the feedback is read and
        nothing changes, whatever the generator returns. */
    method RegenerateTweetAsWritten(id: string, generate: string -> GenerationResponse) returns (usedFeedback: string)
      modifies this
      ensures usedFeedback == FeedbackFor(old(feedback), id)
      ensures tweets == old(tweets) && editingTweet == old(editingTweet)
      ensures editContent == old(editContent) && feedback == old(feedback)
    {
      usedFeedback := FeedbackFor(feedback, id);
      var newTweets := generate(usedFeedback);
      GuardNeverHolds(newTweets);
      if IsPositive(LengthOf(newTweets)) {
        // The content update and the feedback reset under the guard are dead code.
        assert false;
      }
    }

    /** `regenerateTweet` as intended: with at least one generated tweet,
        the first one's content is written through `UpdateContent` (whose
        database answer is `stored`) and the card's feedback is cleared,
        even when the write fails; with none nothing changes. */
    method RegenerateTweet(id: string, generate: string -> GenerationResponse, stored: Option<TweetRow>)
      returns (usedFeedback: string)
      requires var response := generate(FeedbackFor(feedback, id));
        stored.Some? && |response.tweets| > 0 ==>
          stored.value.id == id && stored.value.content == response.tweets[0].content
      modifies this
      ensures usedFeedback == FeedbackFor(old(feedback), id)
      ensures |generate(usedFeedback).tweets| == 0 || stored.None? ==>
        tweets == old(tweets) && editingTweet == old(editingTweet)
      ensures |generate(usedFeedback).tweets| > 0 && stored.Some? ==>
        && tweets == ReplaceById(old(tweets), TweetId, stored.value)
        && editingTweet.None?
      ensures |generate(usedFeedback).tweets| > 0 && stored.Some? && FindById(old(tweets), id).Some? ==>
        exists t :: t in tweets && t.id == id && t.content == generate(usedFeedback).tweets[0].content
      ensures |generate(usedFeedback).tweets| == 0 ==> feedback == old(feedback)
      ensures |generate(usedFeedback).tweets| > 0 ==> feedback == old(feedback)[id := ""] && feedback[id] == ""
      ensures editContent == old(editContent)
    {
      usedFeedback := FeedbackFor(feedback, id);
      var newTweets := generate(usedFeedback);
      if |newTweets.tweets| > 0 {
        UpdateContent(id, newTweets.tweets[0].content, stored);
        feedback := feedback[id := ""];
      }
    }

    /** `deleteTweet`, then the page's `handleTweetDelete`. `deleted` is
        the database's answer: on failure the list is unchanged. */
    method DeleteTweet(id: string, deleted: bool)
      modifies this
      ensures deleted ==> tweets == RemoveById(old(tweets), TweetId, id)
      ensures deleted ==> forall t :: t in tweets ==> t.id != id
      ensures !deleted ==> tweets == old(tweets)
      ensures editingTweet == old(editingTweet) && editContent == old(editContent) && feedback == old(feedback)
    {
      if deleted {
        tweets := RemoveById(tweets, TweetId, id);
      }
    }
  }

  /** A status change leaves the other columns' tweets in place and puts
      the stored row in the column of its status, and in no other. */
  lemma SetStatusColumns(tweets: seq<TweetRow>, stored: TweetRow)
    requires exists t :: t in tweets && t.id == stored.id
    ensures var r := ReplaceById(tweets, TweetId, stored);
      && stored in StatusTweets(r, stored.status)
      && (forall s, t :: t in StatusTweets(r, s) && t.id == stored.id ==> s == stored.status)
      && (forall s, t: TweetRow :: t.id != stored.id ==> (t in StatusTweets(r, s) <==> t in StatusTweets(tweets, s)))
  {
    WriteBackColumns(tweets, stored, stored.status);
    assert stored.(status := stored.status) == stored;
  }
}
