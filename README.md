# Viral-potential scoring and tweet workflow: a Dafny model

This project models the logic of a tweet-writing web application. The
application turns ideas and transcripts into draft tweets and scores each
draft's viral potential. Drafts then move through a board of four statuses
(generated, in review, approved, published). The model covers the parts of
that application that compute something locally:

- **The viral-potential scorer** (`lib/viral-scoring.ts`). A tweet and a
  content mode give three sub-scores: authenticity, engagement prediction
  and quality signals. Each sub-score starts from a base value and is moved
  by fixed integer rules over substring matches against static word tables.
  Each is then clamped to 0..100. The total is the rounded 40/35/25
  weighting of the three. Each rule's insight sentence goes into strengths,
  improvements or both, by keyword. A reasoning sentence is picked from six
  bands. A batch of tweets is ranked with a stable sort. The three
  sub-scorers update a running score and an insight list step by step, so
  they are methods. Each method is proved equal to a rule-table function,
  and the properties are proved about those functions.
- **The score display** (`components/ui/TweetScoreDisplay.tsx`). Colour
  classes and labels are chosen from the thresholds 50, 60, 70 and 80.
- **The environment check** (`lib/env-check.ts`). It finds which services
  are configured and builds the status message.
- **The Twitter import selection**
  (`app/api/import-twitter-tweets/route.ts`). It computes an engagement
  score, sorts, keeps the ten best and fills the free training slots.
- **The insight clean-up after extraction**
  (`app/api/extract-insights/route.ts`). It checks the transcript's length
  bounds, then filters, trims, cuts and numbers the model's insights. When
  too few usable insights come back, it falls back to transcript sentences.
- **The transcript wizard's client rules**
  (`components/dashboard/TranscriptWizard.tsx`). These are the length
  checks, the card list built from the insights, toggle, edit, save,
  cancel, select all and deselect all, and the check before generation.
- **The tweet board** (`components/dashboard/TweetBoard.tsx`). It has the
  status columns, the actions each card offers, and the handlers. A class
  `Board` holds the page's tweet list and the board's own editing and
  feedback state, and its methods are the handlers.
- **The pages' list updates and counts**: tweets page
  (`app/dashboard/tweets/page.tsx`), dashboard (`app/dashboard/page.tsx`)
  and training examples (`app/dashboard/training/page.tsx`). The training
  page is a class `Page` with its example list and its text field.

Shared modules:

- `Seqs` models `filter`, `slice` and the stable `sort`.
- `Text` models `trim`, `includes`, `toLowerCase` on ASCII, `split` on a
  character class, `join` and `String(n)`.
- `Bands` models threshold banding.
- `IdLists` models the id-keyed `map` replace and `filter` delete that the
  pages share.
- `Wrappers` holds `Option` and `Result`.

Database reads and writes, the language-model calls, toasts and the clock
are not modelled. Where an operation's outcome depends on one of them, its
answer is a parameter:

- the row the database hands back (None when the write fails):
  `TweetBoard.Board.SetStatus`, `ScheduleTweet`, `UpdateContent`,
  `RegenerateTweet` and `TrainingPage.Page.AddExample`;
- whether a delete succeeded: `TweetBoard.Board.DeleteTweet` and
  `TrainingPage.Page.DeleteExample`;
- a query result: `DashboardPage.FetchStats` (the status rows) and
  `TwitterImport.SelectForImport` (the query for the user's existing
  training examples: an error, or the length of the returned list);
- the model's parsed reply: `ExtractInsights.SanitizeReply` and
  `ExtractFromTranscript`;
- the generator's answer: `TweetBoard.Board.RegenerateTweet` and
  `RegenerateTweetAsWritten`;
- the scheduled time: `TweetBoard.Board.ScheduleTweet`.

Some of the code's behaviour is easy to misread. The model follows the code as written:

- The extract route rejects a short trimmed transcript before it checks
  the untrimmed length against 50000.
- The fallback's `'...'` is decided on the untrimmed segment length.
- `valueFirst` adds 12 points, not 10.
- The dashboard's "scheduled" count counts the approved rows.
- The board's regeneration never writes anything: see "## Findings".

## Model

| member | source | states |
|---|---|---|
| ViralScoring.Clamp | lib/viral-scoring.ts:132 | the result is in 0..100; in-range values are kept, negatives become 0, values over 100 become 100 |
| ViralScoring.Authenticity | lib/viral-scoring.ts:43-133 | the authenticity sub-score of any tweet and mode is in 0..100 |
| ViralScoring.ScoreAuthenticity | lib/viral-scoring.ts:43-133 | the step-by-step scorer returns exactly the score and insight list of the authenticity rule table, and the score is in 0..100 |
| ViralScoring.ScoreHumanVoice | lib/viral-scoring.ts:49-81 | the human-voice block (personal +12, collective +8 in community mode only, two or more conversational words +10 or one +5, authentic emotion +8), summed from 0, gives the human-voice part of the rule table |
| ViralScoring.CreditAuthenticityPenalties | lib/viral-scoring.ts:84-104 | the AI-typical −15, corporate −12 and promotional (two or more −15, one −5) rules run in order on the running score |
| ViralScoring.CreditAuthenticityLength | lib/viral-scoring.ts:107-116 | the length rule adds exactly what the length band prescribes |
| ViralScoring.CreditAuthenticityStructure | lib/viral-scoring.ts:107-130 | the length, punctuation-variety (+8 for two or more kinds of mark) and excessive-caps (−10 above 40% capitals among letters) rules run in order |
| ViralScoring.ApplyAuthenticity | lib/viral-scoring.ts:46-132 | from base 50, all authenticity rules then the clamp give the rule table's clamped result |
| ViralScoring.AuthenticityLengthBands | lib/viral-scoring.ts:107-116 | +10 exactly for 60..200 characters, +5 exactly for 40..59 or 201..280, −8 exactly below 40, no rule above 280 |
| ViralScoring.AuthenticityModeDifference | lib/viral-scoring.ts:52-62 | the only mode-dependent authenticity rule is the collective-pronoun bonus, 8 points larger in community mode; other modes score alike |
| ViralScoring.Engagement | lib/viral-scoring.ts:136-242 | the engagement sub-score of any tweet and mode is in 0..100 |
| ViralScoring.ScoreEngagementPrediction | lib/viral-scoring.ts:136-242 | the step-by-step scorer returns exactly the engagement rule table's score and insights, and the score is in 0..100 |
| ViralScoring.CreditQuestion | lib/viral-scoring.ts:142-154 | question mark and engagement phrase +25, question mark alone +15, phrase alone +12 |
| ViralScoring.CreditEngagementDiscussion | lib/viral-scoring.ts:142-169 | the question chain, relatable (+15) and opinion (+12) rules run in order |
| ViralScoring.CreditEngagementHooks | lib/viral-scoring.ts:172-196 | the value (two or more +15, one +8), story (+10) and emotion (two or more +12, one +6) rules run in order |
| ViralScoring.CreditMode | lib/viral-scoring.ts:199-224 | the running score gains exactly the bonus of the one mode case that applies |
| ViralScoring.CreditEngagementLength | lib/viral-scoring.ts:233-239 | over 350 characters −5, else under 50 −5, otherwise nothing |
| ViralScoring.CreditEngagementAdjustments | lib/viral-scoring.ts:199-239 | the mode bonus, self-promotion ('follow me' or 'subscribe') −8 and length rules run in order |
| ViralScoring.ApplyEngagement | lib/viral-scoring.ts:139-241 | from base 40, all engagement rules then the clamp give the rule table's clamped result |
| ViralScoring.ModeBonus | lib/viral-scoring.ts:199-224 | exactly one mode case applies: it adds 12 exactly for `valueFirst` with value words, 10 exactly under the other three modes' own conditions, and 0 otherwise |
| ViralScoring.EngagementModeDifference | lib/viral-scoring.ts:199-224 | without the mode bonus, the engagement score is the same for every mode |
| ViralScoring.Quality | lib/viral-scoring.ts:246-335 | the quality sub-score of any tweet is in 0..100 |
| ViralScoring.ScoreQualitySignals | lib/viral-scoring.ts:246-335 | the step-by-step scorer returns exactly the quality rule table's score and insights, and the score is in 0..100 |
| ViralScoring.CreditReadability | lib/viral-scoring.ts:258-271 | the average-word-length rule: +10 for 3.5..6, else +5 for 3..7, else −5 below 3, else −8 (also for 0/0 with no words), compared on exact quotients |
| ViralScoring.CreditDensity | lib/viral-scoring.ts:274-287 | the content-word ratio rule: +10 from 0.6, else +5 from 0.5, else −5 below 0.4, nothing with no words, compared on exact quotients |
| ViralScoring.CreditSpecificity | lib/viral-scoring.ts:290-305 | specific words and no vague word +12; specific words with vague ones +6; otherwise two or more vague words −8 |
| ViralScoring.CreditSentences | lib/viral-scoring.ts:308-315 | two to four sentences +8; else one sentence in a tweet over 100 characters +3 |
| ViralScoring.CreditQualityLength | lib/viral-scoring.ts:326-332 | 80..220 characters +8, else 50..280 +4 |
| ViralScoring.ApplyQuality | lib/viral-scoring.ts:249-334 | from base 60, the capitalization (+5), readability, density, specificity, sentence, cliché (−10) and length rules then the clamp give the rule table's clamped result |
| ViralScoring.ViralScore | lib/viral-scoring.ts:344-348 | the total is the integer nearest to 0.40·a + 0.35·e + 0.25·q, with halves rounded up; for sub-scores in 0..100 it is in 0..100 |
| ViralScoring.Strengths | lib/viral-scoring.ts:358-363 | an insight is a strength exactly when it contains one of the strength keywords (case-sensitive), and the strengths keep their order |
| ViralScoring.Improvements | lib/viral-scoring.ts:365-368 | an insight is an improvement exactly when it contains one of the improvement keywords, and the improvements keep their order |
| ViralScoring.AiTypicalInBoth | lib/viral-scoring.ts:89 | "AI-typical language reduces authenticity" is both a strength and an improvement |
| ViralScoring.StrongQuestionInNeither | lib/viral-scoring.ts:147 | "Strong question format with direct engagement request" matches no lowercase keyword: it is neither a strength nor an improvement |
| ViralScoring.BandValue | lib/viral-scoring.ts:371-384 | the reasoning band is 5, 4, 3, 2, 1 or 0 for totals ≥85, ≥75, ≥65, ≥55, ≥45 or lower |
| ViralScoring.ReasoningByBand | lib/viral-scoring.ts:371-384 | the reasoning sentence is the one of the total's band and no other sentence matches |
| ViralScoring.ReasoningSentencesDistinct | lib/viral-scoring.ts:372-384 | the six reasoning sentences are pairwise different |
| ViralScoring.BandMonotone | lib/viral-scoring.ts:371-384 | a higher total never gets a lower reasoning band |
| ViralScoring.Combine | lib/viral-scoring.ts:338-400 | the scored tweet carries the three sub-scores and their rounded total; strengths and improvements are keyword-selected ordered sub-lists of all insights; the reasoning is the total's band sentence |
| ViralScoring.ScoreTweetViralPotential | lib/viral-scoring.ts:338-400 | for every tweet and mode: each sub-score and the total are in 0..100, the total is the rounded weighting, the insight lists and reasoning are as in `Combine` |
| ViralScoring.ScoreAll | lib/viral-scoring.ts:405 | one scored entry per input tweet, in input order |
| ViralScoring.RankTweetsByViralPotential | lib/viral-scoring.ts:403-407 | the ranking is a permutation of the scored inputs with non-increasing total, and tweets of equal total keep their input order |
| ViralScoring.NoAuthenticitySignals | lib/viral-scoring.ts:43-133 | with no signal present, the authenticity rules give 42 and only the too-brief insight |
| ViralScoring.EmptyAuthenticity | lib/viral-scoring.ts:43-133 | the empty tweet has authenticity 42 |
| ViralScoring.NoEngagementSignals | lib/viral-scoring.ts:136-242 | with no signal present, the engagement rules give 35 and only the too-brief insight |
| ViralScoring.EmptyEngagement | lib/viral-scoring.ts:136-242 | the empty tweet has engagement 35 |
| ViralScoring.NoQualitySignals | lib/viral-scoring.ts:246-335 | with no words, the 0/0 readability rule gives −8 and the density rules do not fire, for quality 52 |
| ViralScoring.EmptyQuality | lib/viral-scoring.ts:246-335 | the empty tweet has quality 52 |
| ViralScoring.EmptyTweet | lib/viral-scoring.ts:338-400 | the empty tweet scores 42/35/52, totals 42 and gets the low-potential reasoning in every context |
| ViralScoring.CombineLow | lib/viral-scoring.ts:344-384 | sub-scores 42, 35 and 52 round to 42, which is in the lowest reasoning band |
| ViralScoring.VoiceTablesNonEmpty | lib/viral-scoring.ts:27-40 | no human-voice word table holds the empty string, so none matches an empty tweet |
| ViralScoring.PenaltyTablesNonEmpty | lib/viral-scoring.ts:27-40 | no AI-typical, corporate, promotional or punctuation table holds the empty string |
| ViralScoring.EngagementTablesNonEmpty | lib/viral-scoring.ts:27-40 | no engagement, relatable, opinion, value, story or emotion table holds the empty string |
| ViralScoring.QualityTablesNonEmpty | lib/viral-scoring.ts:290-323 | no specific, vague or cliché table holds the empty string |
| ScoreDisplay.ScoreColor | components/ui/TweetScoreDisplay.tsx:28-34 | the colour classes are those of one of the five hues |
| ScoreDisplay.ScoreLabel | components/ui/TweetScoreDisplay.tsx:36-42 | the label is one of the five labels |
| ScoreDisplay.DisplayBandValue | components/ui/TweetScoreDisplay.tsx:28-42 | the display band is 4, 3, 2, 1 or 0 for scores ≥80, ≥70, ≥60, ≥50 or lower |
| ScoreDisplay.LabelByBand | components/ui/TweetScoreDisplay.tsx:36-42 | the label is Excellent, Good, Moderate, Below Average or Low by band, and no other label matches |
| ScoreDisplay.ColorByBand | components/ui/TweetScoreDisplay.tsx:28-34 | the colour classes are green, blue, yellow, orange or red by band, and no other colour matches |
| ScoreDisplay.ColorAgreesWithLabel | components/ui/TweetScoreDisplay.tsx:28-42 | two scores get the same colour exactly when they get the same label |
| ScoreDisplay.LabelMonotone | components/ui/TweetScoreDisplay.tsx:36-42 | a higher score never gets a lower-ranked label |
| ScoreDisplay.BadgeColor | components/ui/TweetScoreDisplay.tsx:180-186 | the badge's colour equals the display's colour for every score |
| ScoreDisplay.ColorClassesInjective | components/ui/TweetScoreDisplay.tsx:29-33 | different colour names give different class strings |
| ScoreDisplay.HuesDistinct | components/ui/TweetScoreDisplay.tsx:29-33 | the five colours are pairwise different |
| EnvCheck.CheckEnvVars | lib/env-check.ts:8-23 | Supabase is set exactly when its URL and anon key are set and non-empty; each key flag likewise; `all` is the conjunction of the three |
| EnvCheck.EnvMessage | lib/env-check.ts:25-36 | with everything configured the message is the configured one; otherwise it starts with the demo-mode prefix and is long enough to hold the prefix and the suffix |
| EnvCheck.GetEnvMessage | lib/env-check.ts:25-36 | the step-by-step message builder returns exactly the message function's value |
| EnvCheck.MissingNames | lib/env-check.ts:30-33 | each service is listed exactly when its flag is false, once, and the list has one entry per false flag |
| EnvCheck.MissingInOrder | lib/env-check.ts:30-33 | the missing names keep the order Supabase, Anthropic, OpenAI |
| EnvCheck.AllConfiguredIff | lib/env-check.ts:26-28 | the all-configured message is returned exactly when `all` holds, whatever the other flags say |
| EnvCheck.DemoMessage | lib/env-check.ts:35 | otherwise the message is the prefix, the names joined by ", " and the suffix; an inconsistent status lists no name |
| EnvCheck.ConfiguredEnvironment | lib/env-check.ts:8-28 | for statuses read from the environment, the all-configured message appears exactly when all four variables are set |
| TwitterImport.EngagementScore | app/api/import-twitter-tweets/route.ts:104-108 | non-negative counts give a non-negative engagement score |
| TwitterImport.EngagementWeights | app/api/import-twitter-tweets/route.ts:104-108 | one more like, retweet, reply or quote raises the score by 1, 3, 2 or 2 |
| TwitterImport.WithEngagement | app/api/import-twitter-tweets/route.ts:102-114 | each tweet is paired, in order, with its engagement score |
| TwitterImport.TopTweets | app/api/import-twitter-tweets/route.ts:117-119 | at most ten tweets (all when fewer), in non-increasing score order, drawn from the scored tweets |
| TwitterImport.TopTweetsAreBest | app/api/import-twitter-tweets/route.ts:117-119 | every scored tweet left out scores no higher than any kept one |
| TwitterImport.AvailableSlots | app/api/import-twitter-tweets/route.ts:135 | free slots are 10 minus the stored count, never below 0, and 10 when the count is missing |
| TwitterImport.SelectForImport | app/api/import-twitter-tweets/route.ts:94-149 | no fetched tweet is a 404; with tweets, a failed query for the existing examples is a 500; after a successful query, no free slot is a 400; otherwise the imported tweets are the first min(slots, top) top tweets, each inserted as a row of the user with its text, in order |
| TwitterImport.ImportKeepsCap | app/api/import-twitter-tweets/route.ts:135-136 | with at most ten stored examples, the import never takes the user past ten |
| ExtractInsights.ValidateTranscript | app/api/extract-insights/route.ts:32-44 | too short exactly when missing or under 500 characters trimmed; too long exactly when it passes that and is over 50000 characters untrimmed; otherwise accepted |
| ExtractInsights.Kept | app/api/extract-insights/route.ts:149-151 | the kept insights are the first five (or fewer) of those whose trimmed content is longer than 10, in order |
| ExtractInsights.ValidInsights | app/api/extract-insights/route.ts:149-157 | each kept insight has its content trimmed, a missing or empty speaker as null, a missing or empty type as 'key_point', and its position as index |
| ExtractInsights.ValidInsightsTrimmed | app/api/extract-insights/route.ts:150-153 | every returned content is already trimmed and longer than 10 characters |
| ExtractInsights.Fallback | app/api/extract-insights/route.ts:161-167 | the first three sentence pieces longer than 50 characters trimmed, each cut to 200 characters with '...' when the untrimmed piece is longer than 200, typed 'key_point', without speaker, numbered by position |
| ExtractInsights.FallbackContentShape | app/api/extract-insights/route.ts:163 | a fallback content holds 51..203 characters, and starts with the first min(200, length) characters of the trimmed piece, which contain no sentence end mark, since the split leaves none in a piece; a piece of at most 200 characters is kept whole |
| ExtractInsights.FallbackShape | app/api/extract-insights/route.ts:161-167 | every fallback insight holds 51..203 characters |
| ExtractInsights.SanitizeReply | app/api/extract-insights/route.ts:144-180 | a reply without an insight array is an error; otherwise three or more valid insights are returned as they are, fewer are replaced by the fallback, `total_extracted` is the list's length, and the summary defaults |
| ExtractInsights.ExtractFromTranscript | app/api/extract-insights/route.ts:32-180 | a refused transcript gives its error; an accepted one gives the cleaned reply, with at most five insights counted correctly |
| TranscriptWizard.CheckTranscript | components/dashboard/TranscriptWizard.tsx:98-106 | refused as too short exactly when blank or under 500 characters, as too long exactly when over 50000, accepted otherwise |
| TranscriptWizard.ServerAcceptedPassesWizard | components/dashboard/TranscriptWizard.tsx:98-106 | every transcript the extract route accepts passes the wizard's checks |
| TranscriptWizard.WizardLooserThanServer | components/dashboard/TranscriptWizard.tsx:98 | a space followed by 499 letters passes the wizard but is refused as too short by the route, which counts trimmed characters |
| TranscriptWizard.InitCards | components/dashboard/TranscriptWizard.tsx:123-129 | one card per insight, in order, selected, not editing, with its content as original content and id `insight-<index>`; ids distinct, at most one editing |
| TranscriptWizard.CardIdInjective | components/dashboard/TranscriptWizard.tsx:125 | different indexes give different card ids |
| TranscriptWizard.Toggle | components/dashboard/TranscriptWizard.tsx:143-151 | the card with the id flips its selection; other cards and all other fields are unchanged |
| TranscriptWizard.ToggleTwice | components/dashboard/TranscriptWizard.tsx:143-151 | toggling the same id twice restores the list |
| TranscriptWizard.Edit | components/dashboard/TranscriptWizard.tsx:153-161 | a card is editing exactly when it has the id; nothing else changes |
| TranscriptWizard.EditSingle | components/dashboard/TranscriptWizard.tsx:153-161 | with distinct ids, after an edit at most one card is editing |
| TranscriptWizard.Save | components/dashboard/TranscriptWizard.tsx:163-171 | the card with the id takes the new content and stops editing; every other card and field is unchanged |
| TranscriptWizard.Cancel | components/dashboard/TranscriptWizard.tsx:173-181 | the card with the id goes back to its original content and stops editing; every other card and field is unchanged |
| TranscriptWizard.CancelUndoesSave | components/dashboard/TranscriptWizard.tsx:163-181 | cancelling after a save gives the same list as cancelling straight away |
| TranscriptWizard.EditSaveCancel | components/dashboard/TranscriptWizard.tsx:123-181 | edit, save and cancel on a fresh card leave its extracted insight |
| TranscriptWizard.UpdatesKeepInvariant | components/dashboard/TranscriptWizard.tsx:143-181 | toggle, save, cancel and select all keep ids distinct and at most one card editing |
| TranscriptWizard.SetAllSelected | components/dashboard/TranscriptWizard.tsx:529-535 | every card's selection is set to the given value and nothing else changes |
| TranscriptWizard.SetAllSelectedCount | components/dashboard/TranscriptWizard.tsx:529-535 | after Select All every card is selected; after Deselect All none is |
| TranscriptWizard.CheckGenerate | components/dashboard/TranscriptWizard.tsx:185-191 | refused exactly when no card is selected; otherwise the selected cards' insights, in order |
| TranscriptWizard.GenerateAfterSelectAll | components/dashboard/TranscriptWizard.tsx:185-191 | after Deselect All generation is refused; after Select All it receives every insight |
| TweetBoard.StatusTweets | components/dashboard/TweetBoard.tsx:242-244 | a column holds exactly the tweets with its status, in list order |
| TweetBoard.ColumnsPartition | components/dashboard/TweetBoard.tsx:242-244 | a tweet with a known status is in exactly its own column; when every status is known the four columns together hold every tweet |
| TweetBoard.StatusesDistinct | components/dashboard/TweetBoard.tsx:242-244 | the four statuses are pairwise different and are exactly the known statuses |
| TweetBoard.Offered | components/dashboard/TweetBoard.tsx:279-395 | every card offers delete, and every offered move goes to one of the four statuses other than the card's own |
| TweetBoard.OfferedMoves | components/dashboard/TweetBoard.tsx:343-395 | a card offers a move to a status exactly when the board has that move from its status (generated to in review or approved, in review to generated or approved, approved to published), except while a generated tweet is edited |
| TweetBoard.OfferedActions | components/dashboard/TweetBoard.tsx:279-312 | delete is on every card; edit and regenerate exactly on generated tweets; schedule exactly on approved ones |
| TweetBoard.PublishedOffersDelete | components/dashboard/TweetBoard.tsx:279-395 | a published tweet offers delete and nothing else |
| TweetBoard.MovesForward | components/dashboard/TweetBoard.tsx:352-395 | every offered move changes the status, and the only backward move is from in review to generated |
| TweetBoard.PublishedReachable | components/dashboard/TweetBoard.tsx:352-395 | from any other status, published is reachable in at most two offered moves |
| TweetBoard.FindById | components/dashboard/TweetBoard.tsx:137-142 | the found row is in the list with the id, and nothing is found exactly when no row has the id |
| TweetBoard.WriteBackColumns | components/dashboard/TweetBoard.tsx:135-152 | after a row with a new status is written back, it is in that column and no other, and every other row keeps its columns |
| TweetBoard.SetStatusColumns | components/dashboard/TweetBoard.tsx:135-152 | a stored row that replaces an existing tweet lands in the column of its status and no other, and every other row keeps its columns |
| TweetBoard.Board.Column | components/dashboard/TweetBoard.tsx:242-244 | the board's column holds exactly the board's tweets with that status |
| TweetBoard.Board.SetStatus | components/dashboard/TweetBoard.tsx:135-152 | on success the stored row, which has the new status, replaces the rows with its id and is in that status's column and no other; when the update fails the list is unchanged; the editing state and feedback are untouched |
| TweetBoard.Board.ScheduleTweet | components/dashboard/TweetBoard.tsx:217-240 | on success the stored row, with the given scheduled time and status 'approved', replaces the rows with its id, so the approved column holds the tweet with that time; when the update fails the list is unchanged |
| TweetBoard.Board.StartEdit | components/dashboard/TweetBoard.tsx:282-285 | the tweet is being edited, starting from its content |
| TweetBoard.Board.ChangeEditContent | components/dashboard/TweetBoard.tsx:320 | only the edit text changes |
| TweetBoard.Board.CancelEdit | components/dashboard/TweetBoard.tsx:326 | no tweet is being edited; nothing else changes |
| TweetBoard.Board.UpdateContent | components/dashboard/TweetBoard.tsx:154-172 | on success the stored row, with the new content, replaces the rows with its id and editing ends; when the update fails the list and the editing state are unchanged |
| TweetBoard.Board.SetFeedback | components/dashboard/TweetBoard.tsx:106-108 | the tweet's feedback entry is set and nothing else changes |
| TweetBoard.GuardNeverHolds | components/dashboard/TweetBoard.tsx:200 | the regeneration guard as written, `length > 0` on the generator's answer object, is false for every answer |
| TweetBoard.GuardMissesResults | components/dashboard/TweetBoard.tsx:200 | an answer holding one generated tweet fails the guard as written |
| TweetBoard.Board.RegenerateTweetAsWritten | components/dashboard/TweetBoard.tsx:174-215 | the generator gets the card's feedback (empty when absent), and the list, the editing state and the feedback are left unchanged whatever it returns |
| TweetBoard.Board.RegenerateTweet | components/dashboard/TweetBoard.tsx:174-215 | corrected: with at least one generated tweet, the first one's content is written (the stored row replaces the rows with its id and editing ends, unless the write fails) and the card's feedback becomes empty; with none nothing changes |
| TweetBoard.Board.DeleteTweet | components/dashboard/TweetBoard.tsx:246-265 | when the delete succeeds the rows with the id are dropped from the list and no row with the id is left; when it fails the list is unchanged; nothing else changes |
| IdLists.ReplaceById | app/dashboard/tweets/page.tsx:72-78 | same length; entries with the updated id become the update, every other entry stays in place (the dashboard's `handleTweetUpdate`, app/dashboard/page.tsx lines 95-100, is the same code) |
| IdLists.ReplaceAbsent | app/dashboard/tweets/page.tsx:74-76 | an update whose id is not in the list leaves the list unchanged |
| IdLists.ReplaceKeepsIds | app/dashboard/tweets/page.tsx:74-76 | the id at every position is unchanged |
| IdLists.ReplaceIdempotent | app/dashboard/tweets/page.tsx:74-76 | applying the same update twice is applying it once |
| IdLists.ReplacePresent | app/dashboard/tweets/page.tsx:74-76 | the update is in the result exactly when some entry had its id |
| IdLists.RemoveById | app/dashboard/tweets/page.tsx:80-82 | an entry survives exactly when its id differs, and the survivors keep their order (the dashboard's `handleTweetDelete`, app/dashboard/page.tsx lines 111-112, is the same code) |
| IdLists.RemoveCount | app/dashboard/tweets/page.tsx:81 | the entries dropped are exactly those with the id |
| IdLists.RemoveAbsent | app/dashboard/tweets/page.tsx:81 | deleting an id that is not present leaves the list unchanged |
| IdLists.RemoveAppend | app/dashboard/page.tsx:111-112 | deleting from a joined list deletes from each part |
| TweetsPage.GetTweetStats | app/dashboard/tweets/page.tsx:84-92 | the total is the list's length and each count is the number of tweets with that status, none above the total |
| TweetsPage.StatsAddUp | app/dashboard/tweets/page.tsx:84-92 | when every status is one of the four, the four counts add up to the total |
| TweetsPage.StatusChangeStats | app/dashboard/tweets/page.tsx:72-92 | a status change of a uniquely identified tweet moves one count from its old status to the new one and keeps the total |
| TweetsPage.DeleteStats | app/dashboard/tweets/page.tsx:80-92 | deleting an id lowers the total by the number of tweets with that id |
| DashboardPage.HandleNewTweets | app/dashboard/page.tsx:105-106 | the new tweets come first and the previous list follows, both in their order |
| DashboardPage.NewTweetsColumns | app/dashboard/page.tsx:105-106 | each column grows by the new tweets of that status |
| DashboardPage.UpdateNewTweet | app/dashboard/page.tsx:95-109 | updating a just-added tweet whose id no earlier tweet has leaves the earlier list as it was |
| DashboardPage.DeleteAfterNewTweets | app/dashboard/page.tsx:105-115 | a deleted id is gone from the new and the earlier tweets alike |
| DashboardPage.FetchStats | app/dashboard/page.tsx:70-93 | a failed query keeps the previous stats; a missing result gives zeros; otherwise the total, published and approved ("scheduled") counts, whose sum stays within the total; the last activity is the first row's non-empty creation time, else null |
| DashboardPage.PublishedApprovedDisjoint | app/dashboard/page.tsx:80-81 | the published and approved counts together never exceed the row count |
| TrainingPage.AddGuard | app/dashboard/training/page.tsx:51-57 | blank input is ignored exactly when it trims to empty; a full list is refused exactly when the input is not blank and ten examples exist; otherwise the add goes ahead |
| TrainingPage.AddKeepsCap | app/dashboard/training/page.tsx:54-57 | an add that passes the guards leaves room for the new example within ten |
| TrainingPage.AddThenDelete | app/dashboard/training/page.tsx:77-97 | deleting a just-added example with a fresh id gives the earlier list back |
| TrainingPage.Page.SetNewExample | app/dashboard/training/page.tsx:50-51 | only the text field changes |
| TrainingPage.Page.AddExample | app/dashboard/training/page.tsx:50-86 | the guards leave the state unchanged; a failed insert changes nothing; otherwise the stored row with the trimmed text is prepended, the field is cleared, and the list stays within ten |
| TrainingPage.Page.DeleteExample | app/dashboard/training/page.tsx:88-97 | after a successful delete exactly the examples with other ids remain, in order; a failed delete changes nothing |
| Text.TrimIsWindow | lib/viral-scoring.ts:308 | `trim` removes white space at both ends and nothing else |
| Text.TrimEmptyIff | components/dashboard/TranscriptWizard.tsx:98 | a string trims to empty exactly when it is all white space |
| Text.TrimIdempotent | app/api/extract-insights/route.ts:153 | trimming twice is trimming once |
| Text.ContainsIff | lib/viral-scoring.ts:52 | `includes` holds exactly when some window of the string equals the pattern |
| Text.ContainsAnyIff | lib/viral-scoring.ts:52 | `some(includes)` holds exactly when some listed pattern occurs |
| Text.CountContained | lib/viral-scoring.ts:65 | `filter(includes).length` is at most the table size and is positive exactly when some pattern occurs |
| Text.Lower | lib/viral-scoring.ts:46 | lower-casing keeps the length and lowers exactly the ASCII capitals |
| Text.SplitRuns | lib/viral-scoring.ts:308 | splitting on runs of a character class gives at least one piece, and no piece contains a class character |
| Text.DecimalInjective | components/dashboard/TranscriptWizard.tsx:125 | different numbers print differently |
| Seqs.Filter | lib/viral-scoring.ts:358 | the result holds exactly the input's elements that pass, and is no longer than the input |
| Seqs.FilterIsSubsequence | lib/viral-scoring.ts:358 | what a filter keeps is an order-preserving sub-list |
| Seqs.SortIsSorted | lib/viral-scoring.ts:406 | the sort's result is in non-increasing key order |
| Seqs.SortIsStable | lib/viral-scoring.ts:406 | elements of equal key keep their input order |
| Seqs.SortByKeyDesc | app/api/import-twitter-tweets/route.ts:118 | the sort returns a permutation of its input |
| Bands.BandIff | lib/viral-scoring.ts:372-384 | the band of a value is above k exactly when the value reaches the k-th ascending threshold |
| Bands.BandMonotone | components/ui/TweetScoreDisplay.tsx:36-42 | a larger value never gets a lower band |

## Left out

- `Math.round` on floating point: the total is exact rational rounding,
  `(40a+35e+25q+50) div 100`. A floating-point sum that misses an exact
  half is not covered.
- JavaScript `length` counts UTF-16 code units. The model counts
  characters, which agree on text without astral-plane characters.
- `toLowerCase` is modelled on ASCII letters only. Non-ASCII letters keep
  their case, so word tables can only match ASCII text as the source does.
- The score and insight display are rendering (JSX). Only the colour and
  label choices are modelled.
- Database reads and writes are not modelled. Their answers are
  parameters of the members listed in the introduction. User lookups,
  auth sessions and `ensureUserExists` are not modelled at all.
- The stored rows passed to `TweetBoard.Board`'s handlers are taken as
  consistent with the request: a stored row has the requested id and the
  requested new field values.
- The language-model calls are not modelled. The parsed reply and the
  generator's output are parameters. The prompts and JSON parsing of the
  reply are not part of this model.
- Regeneration's reads of the idea, the training examples and the tone
  preference are database lookups. The generator is a function of the
  card's feedback alone, the one input the board itself supplies.
- The clock is a parameter: `TweetBoard.Board.ScheduleTweet` takes the
  scheduled time instead of "now plus one hour".
- Toasts, console logging, the loading flags and the fetch or refresh of
  lists are I/O. The server's newest-first ordering of fetched rows is not
  modelled.
- The user and request checks of the import route before line 94 (user id,
  Twitter user lookup, API key) are not part of this model.
- `statusConfig[tweet.status]` fails for a status outside the four; the
  model only states what the columns and buttons are for the four
  statuses.
- The zip of ranked tweets back to insight ids in the insight-to-tweets
  route is outside the modelled core. Its pairing is lost when the scores
  reorder the tweets.
- Text.SplitRuns: states only that pieces carry no separator and that at
  least one piece exists, not that the pieces rebuild the string.
- ViralScoring.ScoreAll: the source maps the scorer over the list inside
  `rankTweetsByViralPotential`; the model keeps that map as its own
  function.

## Findings

| source | as written | input that shows it | evidently intended | confidence | as-written member | corrected member |
|---|---|---|---|---|---|---|
| components/dashboard/TweetBoard.tsx:193-204 | the answer of `generateTweets` is an object holding a `tweets` array, but the guard reads `newTweets.length`, which is undefined, and the update would write `newTweets[0]`, an undefined element rather than a string | any regeneration whose answer holds one tweet, such as `{tweets: [{content: "A regenerated tweet", viralScore: 80}], totalGenerated: 1}` (`TweetBoard.GuardMissesResults`): the guard is false, so neither the content nor the feedback changes | test `newTweets.tweets.length > 0`, write `newTweets.tweets[0].content`, then clear the card's feedback | not executed | TweetBoard.Board.RegenerateTweetAsWritten | TweetBoard.Board.RegenerateTweet |
