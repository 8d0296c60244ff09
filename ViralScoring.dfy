/** The viral-potential scorer (version 2.0 of the scoring system).

    A tweet is given three sub-scores: authenticity (weight 40%), engagement
    prediction (35%) and quality signals (25%). Each sub-score starts from a
    base value and is moved by fixed rules that test the tweet, mostly by
    substring matches against static word tables. Every rule that fires adds
    a literal number of points and pushes one insight sentence. The sum is
    clamped to [0, 100]. The rounded weighted total selects one of six
    reasoning sentences. The insight sentences are sorted into strengths and
    improvements by keyword, and a batch of tweets is ranked by total.

    Each sub-score is specified in two layers: what the rules test in the
    tweet, gathered into a signals record (`DetectAuthenticity`, ...), and
    the rule table over those signals, which lists the rules in the order
    they fire (`AuthenticityRules`, `EngagementRules`, `QualityRules`). The
    imperative scorers (`ScoreAuthenticity`, ...) bump a running score and
    push insights rule by rule, one source `if` chain per step method, and
    are proved to produce exactly the clamped table total and the table's
    insight list. */
module ViralScoring {
  import Bands
  import opened Wrappers
  import opened Seqs
  import opened Text

  // ---------------------------------------------------------------------
  // Context

  /** The four content modes of the type, plus any other string a caller
      passes (the strategy picker in the transcript wizard also offers
      'engagementBait'); for such a mode no mode-specific rule runs. */
  datatype ContentMode = ThoughtLeadership | CommunityEngagement | PersonalBrand | ValueFirst | OtherMode

  /** Only `contentMode` is read by the scorer. */
  datatype ScoringContext = ScoringContext(
    contentMode: ContentMode,
    targetAudience: Option<string>,
    tone: Option<string>,
    trainingExamples: Option<seq<string>>)

  // ---------------------------------------------------------------------
  // Word tables

  const ConversationalWords: seq<string> := ["think", "feel", "believe", "wonder", "notice", "realize", "learned", "found", "honestly", "personally", "actually", "really", "pretty", "quite", "seem", "tend"]
  const PersonalPronouns: seq<string> := ["i ", "my ", "me ", "myself", "i've", "i'm", "i'll", "i'd"]
  const CollectivePronouns: seq<string> := ["we ", "our ", "us ", "ourselves", "we've", "we're", "we'll"]
  const AiTypicalPhrases: seq<string> := ["delve into", "leverage", "utilize", "furthermore", "in conclusion", "moreover", "comprehensive", "holistic", "seamless", "robust", "endeavor", "facilitate", "optimize", "streamline"]
  const CorporatePhrases: seq<string> := ["best practices", "value proposition", "stakeholders", "ecosystem", "end-to-end", "cutting-edge", "state-of-the-art", "synergy", "paradigm shift", "actionable insights"]
  const AuthenticWords: seq<string> := ["struggled", "failed", "mistake", "wrong", "confused", "surprised", "grateful", "proud", "disappointed", "excited", "frustrated"]
  const PromotionalWords: seq<string> := ["amazing", "incredible", "revolutionary", "perfect", "guarantee", "secret", "exclusive", "breakthrough", "game-changing", "life-changing"]
  const EngagementPhrases: seq<string> := ["what do you think", "agree or disagree", "thoughts?", "let me know", "share your", "tell me", "anyone else", "am i the only one"]
  const RelatablePhrases: seq<string> := ["anyone else", "we all", "everyone knows", "most people", "pretty much everyone", "i'm not the only one"]
  const ValueWords: seq<string> := ["tip", "hack", "learned", "discovered", "found", "works", "helps", "useful", "lesson", "insight"]
  const StorytellingWords: seq<string> := ["yesterday", "today", "last week", "just happened", "story time", "experience", "journey", "when i", "back when"]
  const EmotionWords: seq<string> := ["love", "hate", "excited", "frustrated", "shocked", "amazed", "thrilled", "devastated", "proud", "grateful"]
  const OpinionWords: seq<string> := ["think", "believe", "disagree", "unpopular opinion", "hot take", "controversial"]
  const PunctuationMarks: seq<string> := [".", "!", "?", ",", ":"]
  const StopWords: seq<string> := ["the", "a", "an", "and", "or", "but", "of", "to", "in", "for", "with", "on", "at", "by", "is", "are", "was", "were", "be", "been", "have", "has", "had", "do", "does", "did", "will", "would", "could", "should"]
  const SpecificWords: seq<string> := ["exactly", "specifically", "precisely", "literally", "actually", "concrete", "measurable", "proven", "data", "research", "study"]
  const VagueWords: seq<string> := ["stuff", "things", "whatever", "somehow", "kinda", "sorta", "like", "totally", "basically"]
  const Cliches: seq<string> := ["game changer", "think outside the box", "low hanging fruit", "circle back", "at the end of the day", "it is what it is", "paradigm shift"]

  // ---------------------------------------------------------------------
  // Insight sentences

  const PersonalVoiceInsight := "Personal voice creates authentic connection"
  const CollectiveInsight := "Collective language builds community"
  const StrongConversationalInsight := "Strong conversational tone enhances relatability"
  const GoodConversationalInsight := "Good conversational elements present"
  const AuthenticEmotionInsight := "Authentic emotional expression builds trust"
  // Two sentences are written as their words joined by single spaces (the
  // same strings), so that which keywords they contain can be proved word
  // by word; see `AiTypicalInBoth` and `StrongQuestionInNeither`.
  const AiTypicalInsight := Join(["AI-typical", "language", "reduces", "authenticity"], " ")
  const CorporateInsight := "Corporate jargon may feel impersonal"
  const HeavyPromotionalInsight := "Heavy promotional language reduces credibility"
  const ModeratePromotionalInsight := "Moderate promotional tone detected"
  const OptimalAuthenticLengthInsight := "Optimal length for authentic engagement"
  const ReadableLengthInsight := "Good length for readability"
  const BriefExpressionInsight := "May be too brief for meaningful expression"
  const PunctuationInsight := "Natural punctuation variety"
  const CapsInsight := "Excessive capitalization may appear unprofessional"

  const StrongQuestionWords: seq<string> := ["Strong", "question", "format", "with", "direct", "engagement", "request"]
  const StrongQuestionInsight := Join(StrongQuestionWords, " ")
  const DirectQuestionInsight := "Direct question encourages responses"
  const EngagementLanguageInsight := "Engagement-focused language present"
  const RelatableInsight := "Highly relatable content with universal appeal"
  const OpinionInsight := "Opinion-based content sparks discussion"
  const HighValueInsight := "High-value content drives saves and shares"
  const ProvidesValueInsight := "Provides value to audience"
  const StorytellingInsight := "Storytelling elements increase engagement"
  const StrongEmotionInsight := "Strong emotional language creates connection"
  const EmotionInsight := "Emotional elements present"
  const CommunityModeInsight := "Optimized for community interaction"
  const ThoughtLeadershipModeInsight := "Professional discussion catalyst"
  const PersonalBrandModeInsight := "Personal brand building elements"
  const ValueFirstModeInsight := "Value-first approach optimized"
  const SelfPromotionInsight := "Self-promotional calls may reduce organic engagement"
  const LongEngagementInsight := "Length may reduce engagement rate"
  const BriefEngagementInsight := "May be too brief for meaningful engagement"

  const CapitalizationInsight := "Proper capitalization"
  const ExcellentReadabilityInsight := "Excellent readability balance"
  const GoodReadabilityInsight := "Good readability"
  const SimpleWordsInsight := "Words may be too simple"
  const ComplexWordsInsight := "Complex words may reduce accessibility"
  const HighDensityInsight := "High information density"
  const GoodRatioInsight := "Good content-to-filler ratio"
  const FillerInsight := "May contain too much filler"
  const SpecificInsight := "Specific, clear communication"
  const MostlySpecificInsight := "Generally specific with some vague elements"
  const VagueInsight := "Vague language reduces clarity and impact"
  const SentenceVarietyInsight := "Good sentence structure variety"
  const SingleSentenceInsight := "Single substantial sentence"
  const ClicheInsight := "Clich\U{00E9}d phrases reduce originality"
  const OptimalCharactersInsight := "Optimal character usage"
  const GoodContentLengthInsight := "Good content length"

  // ---------------------------------------------------------------------
  // Rules

  /** A rule that fired: the points it adds (negative for a penalty) and
      the insight sentence it pushes. */
  datatype Rule = Rule(delta: int, insight: string)

  /** A single `if`: the rule fires when `c` holds. */
  function When(c: bool, delta: int, insight: string): Option<Rule>
  {
    if c then Some(Rule(delta, insight)) else None
  }

  /** The `>= 2` / `=== 1` chain on a match count. */
  function Tiered(n: nat, high: int, highInsight: string, low: int, lowInsight: string): Option<Rule>
  {
    if n >= 2 then Some(Rule(high, highInsight)) else When(n == 1, low, lowInsight)
  }

  /** The points a rule group contributes. */
  function Points(g: Option<Rule>): int
  {
    if g.Some? then g.value.delta else 0
  }

  /** A running sub-score: the points so far and the insights pushed so far. */
  datatype SubScore = SubScore(score: int, insights: seq<string>)
  {
    /** The state after one `if`/`else if` chain: the rule that fired, if
        any, adds its points and pushes its insight. */
    function Then(g: Option<Rule>): (r: SubScore)
      ensures r.score == score + Points(g)
      ensures g.None? ==> r.insights == insights
      ensures g.Some? ==> r.insights == insights + [g.value.insight]
    {
      match g
      case None => this
      case Some(rule) => SubScore(score + rule.delta, insights + [rule.insight])
    }

    /** `Math.min(100, Math.max(0, score))`, insights kept. */
    function Clamped(): (r: SubScore)
      ensures 0 <= r.score <= 100
      ensures r.insights == insights
    {
      SubScore(Clamp(score), insights)
    }
  }

  function Min(x: int, y: int): int { if x <= y then x else y }
  function Max(x: int, y: int): int { if x >= y then x else y }

  /** `Math.min(100, Math.max(0, x))` */
  function Clamp(x: int): (r: int)
    ensures 0 <= r <= 100
    ensures 0 <= x <= 100 ==> r == x
    ensures x < 0 ==> r == 0
    ensures x > 100 ==> r == 100
  {
    Min(100, Max(0, x))
  }


  // ---------------------------------------------------------------------
  // Steps of the imperative scorers: each performs one `if` (or one
  // `if`/`else if` chain) of the source on a running score and insight
  // list, and is proved to be the corresponding rule applied with `Then`.

  /** `if (c) { score += delta; insights.push(insight); }` */
  method Credit(score: int, insights: seq<string>, c: bool, delta: int, insight: string)
    returns (score': int, insights': seq<string>)
    ensures SubScore(score', insights') == SubScore(score, insights).Then(When(c, delta, insight))
  {
    score', insights' := score, insights;
    if c {
      score' := score + delta;
      insights' := insights + [insight];
    }
  }

  /** `if (n >= 2) { ... } else if (n === 1) { ... }` */
  method CreditTiered(score: int, insights: seq<string>, n: nat, high: int, highInsight: string, low: int, lowInsight: string)
    returns (score': int, insights': seq<string>)
    ensures SubScore(score', insights') == SubScore(score, insights).Then(Tiered(n, high, highInsight, low, lowInsight))
  {
    score', insights' := score, insights;
    if n >= 2 {
      score' := score + high;
      insights' := insights + [highInsight];
    } else if n == 1 {
      score' := score + low;
      insights' := insights + [lowInsight];
    }
  }

  // ---------------------------------------------------------------------
  // Authenticity

  /** What `scoreAuthenticity` detects in a tweet before applying its rules. */
  datatype AuthenticitySignals = AuthenticitySignals(
    personal: bool,          // a personal pronoun occurs
    collective: bool,        // a collective pronoun occurs
    conversational: nat,     // how many conversational words occur
    authentic: bool,         // an authentic-emotion word occurs
    aiTypical: bool,         // an AI-typical phrase occurs
    corporate: bool,         // a corporate phrase occurs
    promotional: nat,        // how many promotional words occur
    length: nat,             // `tweet.length`
    punctuationTypes: nat,   // how many of `. ! ? , :` occur
    capsHeavy: bool)         // more than 40% of the letters are upper case

  /** `(tweet.match(/[A-Z]/g) || []).length / (tweet.match(/[a-zA-Z]/g) || []).length > 0.4`;
      with no letters the ratio is 0/0, which is NaN and fails the comparison. */
  predicate CapsHeavy(tweet: string)
  {
    var letters := Count(tweet, IsAsciiLetter);
    letters > 0 && Count(tweet, IsAsciiUpper) as real / letters as real > 0.4
  }

  /** The word tables are matched against the lower-cased tweet, the
      punctuation marks and the capitals against the tweet itself. */
  function DetectAuthenticity(tweet: string): AuthenticitySignals
  {
    var low := Lower(tweet);
    AuthenticitySignals(
      ContainsAny(low, PersonalPronouns), ContainsAny(low, CollectivePronouns),
      CountContained(low, ConversationalWords), ContainsAny(low, AuthenticWords),
      ContainsAny(low, AiTypicalPhrases), ContainsAny(low, CorporatePhrases),
      CountContained(low, PromotionalWords), |tweet|,
      CountContained(tweet, PunctuationMarks), CapsHeavy(tweet))
  }

  /** The human-voice block, summed from 0 apart from the running score. */
  function HumanVoice(g: AuthenticitySignals, mode: ContentMode): SubScore
  {
    SubScore(0, [])
      .Then(When(g.personal, 12, PersonalVoiceInsight))
      .Then(When(g.collective && mode == CommunityEngagement, 8, CollectiveInsight))
      .Then(Tiered(g.conversational, 10, StrongConversationalInsight, 5, GoodConversationalInsight))
      .Then(When(g.authentic, 8, AuthenticEmotionInsight))
  }

  /** The length bands: 60-200, else 40-280, else below 40. */
  function AuthenticityLengthRule(n: nat): Option<Rule>
  {
    if 60 <= n <= 200 then Some(Rule(10, OptimalAuthenticLengthInsight))
    else if 40 <= n <= 280 then Some(Rule(5, ReadableLengthInsight))
    else When(n < 40, -8, BriefExpressionInsight)
  }

  /** The AI/corporate and over-promotion penalties. */
  function AuthenticityPenalties(st: SubScore, g: AuthenticitySignals): SubScore
  {
    st.Then(When(g.aiTypical, -15, AiTypicalInsight))
      .Then(When(g.corporate, -12, CorporateInsight))
      .Then(Tiered(g.promotional, -15, HeavyPromotionalInsight, -5, ModeratePromotionalInsight))
  }

  /** The length, punctuation and capitalisation checks. */
  function AuthenticityStructure(st: SubScore, g: AuthenticitySignals): SubScore
  {
    st.Then(AuthenticityLengthRule(g.length))
      .Then(When(g.punctuationTypes >= 2, 8, PunctuationInsight))
      .Then(When(g.capsHeavy, -10, CapsInsight))
  }

  /** The authenticity rule table: base 50 plus the human-voice sum, then
      the penalties, then the structure checks (unclamped). */
  function AuthenticityRules(g: AuthenticitySignals, mode: ContentMode): SubScore
  {
    var voice := HumanVoice(g, mode);
    AuthenticityStructure(AuthenticityPenalties(SubScore(50 + voice.score, voice.insights), g), g)
  }

  function Authenticity(tweet: string, mode: ContentMode): (r: SubScore)
    ensures 0 <= r.score <= 100
  {
    AuthenticityRules(DetectAuthenticity(tweet), mode).Clamped()
  }

  /** The length chain of `scoreAuthenticity`. */
  method CreditAuthenticityLength(score: int, insights: seq<string>, len: nat)
    returns (score': int, insights': seq<string>)
    ensures SubScore(score', insights') == SubScore(score, insights).Then(AuthenticityLengthRule(len))
  {
    score', insights' := score, insights;
    if len >= 60 && len <= 200 {
      score' := score + 10;
      insights' := insights + [OptimalAuthenticLengthInsight];
    } else if len >= 40 && len <= 280 {
      score' := score + 5;
      insights' := insights + [ReadableLengthInsight];
    } else if len < 40 {
      score' := score - 8;
      insights' := insights + [BriefExpressionInsight];
    }
  }

  /** The human-voice block of `scoreAuthenticity`, summed from 0. */
  method ScoreHumanVoice(g: AuthenticitySignals, mode: ContentMode) returns (humanVoiceScore: int, insights: seq<string>)
    ensures SubScore(humanVoiceScore, insights) == HumanVoice(g, mode)
  {
    humanVoiceScore := 0;
    insights := [];
    humanVoiceScore, insights := Credit(humanVoiceScore, insights, g.personal, 12, PersonalVoiceInsight);
    humanVoiceScore, insights := Credit(humanVoiceScore, insights, g.collective && mode == CommunityEngagement, 8, CollectiveInsight);
    humanVoiceScore, insights := CreditTiered(humanVoiceScore, insights, g.conversational, 10, StrongConversationalInsight, 5, GoodConversationalInsight);
    humanVoiceScore, insights := Credit(humanVoiceScore, insights, g.authentic, 8, AuthenticEmotionInsight);
  }

  method CreditAuthenticityPenalties(score: int, insights: seq<string>, g: AuthenticitySignals)
    returns (score': int, insights': seq<string>)
    ensures SubScore(score', insights') == AuthenticityPenalties(SubScore(score, insights), g)
  {
    score', insights' := Credit(score, insights, g.aiTypical, -15, AiTypicalInsight);
    score', insights' := Credit(score', insights', g.corporate, -12, CorporateInsight);
    score', insights' := CreditTiered(score', insights', g.promotional, -15, HeavyPromotionalInsight, -5, ModeratePromotionalInsight);
  }

  method CreditAuthenticityStructure(score: int, insights: seq<string>, g: AuthenticitySignals)
    returns (score': int, insights': seq<string>)
    ensures SubScore(score', insights') == AuthenticityStructure(SubScore(score, insights), g)
  {
    score', insights' := CreditAuthenticityLength(score, insights, g.length);
    score', insights' := Credit(score', insights', g.punctuationTypes >= 2, 8, PunctuationInsight);
    score', insights' := Credit(score', insights', g.capsHeavy, -10, CapsInsight);
  }

  /** The body of `scoreAuthenticity` once the signals are known: the
      human-voice points are collected in their own sum, which is added to
      the base 50 at once; then the penalties and the structure checks
      follow, and the result is clamped. */
  method ApplyAuthenticity(g: AuthenticitySignals, mode: ContentMode) returns (score: int, insights: seq<string>)
    ensures SubScore(score, insights) == AuthenticityRules(g, mode).Clamped()
  {
    score := 50;
    var humanVoiceScore;
    humanVoiceScore, insights := ScoreHumanVoice(g, mode);
    score := score + humanVoiceScore;
    score, insights := CreditAuthenticityPenalties(score, insights, g);
    score, insights := CreditAuthenticityStructure(score, insights, g);
    score := Min(100, Max(0, score));
  }

  /** `scoreAuthenticity` */
  method ScoreAuthenticity(tweet: string, mode: ContentMode) returns (score: int, insights: seq<string>)
    ensures SubScore(score, insights) == Authenticity(tweet, mode)
    ensures 0 <= score <= 100
  {
    score, insights := ApplyAuthenticity(DetectAuthenticity(tweet), mode);
  }

  // ---------------------------------------------------------------------
  // Engagement prediction

  /** What `scoreEngagementPrediction` detects in a tweet. */
  datatype EngagementSignals = EngagementSignals(
    directQuestion: bool,    // `tweet.includes('?')`
    engagementPhrase: bool,  // an engagement phrase occurs
    relatable: bool,         // a relatable phrase occurs
    opinion: bool,           // an opinion word occurs
    valueCount: nat,         // how many value words occur
    story: bool,             // a storytelling word occurs
    emotionCount: nat,       // how many emotion words occur
    personal: bool,          // a personal pronoun occurs (personal-brand mode)
    selfPromotion: bool,     // 'follow me' or 'subscribe' occurs
    length: nat)             // `tweet.length`

  function DetectEngagement(tweet: string): EngagementSignals
  {
    var low := Lower(tweet);
    EngagementSignals(
      Contains(tweet, "?"), ContainsAny(low, EngagementPhrases),
      ContainsAny(low, RelatablePhrases), ContainsAny(low, OpinionWords),
      CountContained(low, ValueWords), ContainsAny(low, StorytellingWords),
      CountContained(low, EmotionWords), ContainsAny(low, PersonalPronouns),
      Contains(low, "follow me") || Contains(low, "subscribe"), |tweet|)
  }

  /** The question and engagement-phrase chain: both, else a question,
      else a phrase. */
  function QuestionRule(g: EngagementSignals): Option<Rule>
  {
    if g.directQuestion && g.engagementPhrase then Some(Rule(25, StrongQuestionInsight))
    else if g.directQuestion then Some(Rule(15, DirectQuestionInsight))
    else When(g.engagementPhrase, 12, EngagementLanguageInsight)
  }

  /** The `switch (context.contentMode)`: at most one case runs, under its
      own condition; any other mode runs none. */
  function ModeRule(mode: ContentMode, g: EngagementSignals): Option<Rule>
  {
    match mode
    case CommunityEngagement => When(g.directQuestion || g.engagementPhrase, 10, CommunityModeInsight)
    case ThoughtLeadership => When(g.opinion || g.valueCount > 0, 10, ThoughtLeadershipModeInsight)
    case PersonalBrand => When(g.personal || g.story, 10, PersonalBrandModeInsight)
    case ValueFirst => When(g.valueCount > 0, 12, ValueFirstModeInsight)
    case OtherMode => None
  }

  /** The engagement length bands: above 350, else below 50. */
  function EngagementLengthRule(n: nat): Option<Rule>
  {
    if n > 350 then Some(Rule(-5, LongEngagementInsight))
    else When(n < 50, -5, BriefEngagementInsight)
  }

  /** The discussion triggers: the question chain, relatability and
      opinion. */
  function EngagementDiscussion(st: SubScore, g: EngagementSignals): SubScore
  {
    st.Then(QuestionRule(g))
      .Then(When(g.relatable, 15, RelatableInsight))
      .Then(When(g.opinion, 12, OpinionInsight))
  }

  /** The content hooks: value, storytelling and emotion. */
  function EngagementHooks(st: SubScore, g: EngagementSignals): SubScore
  {
    st.Then(Tiered(g.valueCount, 15, HighValueInsight, 8, ProvidesValueInsight))
      .Then(When(g.story, 10, StorytellingInsight))
      .Then(Tiered(g.emotionCount, 12, StrongEmotionInsight, 6, EmotionInsight))
  }

  /** The mode switch, the self-promotion penalty and the length bands. */
  function EngagementAdjustments(st: SubScore, g: EngagementSignals, mode: ContentMode): SubScore
  {
    st.Then(ModeRule(mode, g))
      .Then(When(g.selfPromotion, -8, SelfPromotionInsight))
      .Then(EngagementLengthRule(g.length))
  }

  /** The rules before the mode switch, from the base score 40. */
  function EngagementBeforeMode(g: EngagementSignals): SubScore
  {
    EngagementHooks(EngagementDiscussion(SubScore(40, []), g), g)
  }

  /** The whole engagement rule table (unclamped). */
  function EngagementRules(g: EngagementSignals, mode: ContentMode): SubScore
  {
    EngagementAdjustments(EngagementBeforeMode(g), g, mode)
  }

  function Engagement(tweet: string, mode: ContentMode): (r: SubScore)
    ensures 0 <= r.score <= 100
  {
    EngagementRules(DetectEngagement(tweet), mode).Clamped()
  }

  /** The question chain of `scoreEngagementPrediction`. */
  method CreditQuestion(score: int, insights: seq<string>, g: EngagementSignals)
    returns (score': int, insights': seq<string>)
    ensures SubScore(score', insights') == SubScore(score, insights).Then(QuestionRule(g))
  {
    score', insights' := score, insights;
    if g.directQuestion && g.engagementPhrase {
      score' := score + 25;
      insights' := insights + [StrongQuestionInsight];
    } else if g.directQuestion {
      score' := score + 15;
      insights' := insights + [DirectQuestionInsight];
    } else if g.engagementPhrase {
      score' := score + 12;
      insights' := insights + [EngagementLanguageInsight];
    }
  }

  /** The `switch (context.contentMode)` of `scoreEngagementPrediction`. */
  method CreditMode(score: int, insights: seq<string>, g: EngagementSignals, mode: ContentMode)
    returns (score': int, insights': seq<string>)
    ensures SubScore(score', insights') == SubScore(score, insights).Then(ModeRule(mode, g))
  {
    score', insights' := score, insights;
    match mode {
      case CommunityEngagement =>
        if g.directQuestion || g.engagementPhrase {
          score' := score + 10;
          insights' := insights + [CommunityModeInsight];
        }
      case ThoughtLeadership =>
        if g.opinion || g.valueCount > 0 {
          score' := score + 10;
          insights' := insights + [ThoughtLeadershipModeInsight];
        }
      case PersonalBrand =>
        if g.personal || g.story {
          score' := score + 10;
          insights' := insights + [PersonalBrandModeInsight];
        }
      case ValueFirst =>
        if g.valueCount > 0 {
          score' := score + 12;
          insights' := insights + [ValueFirstModeInsight];
        }
      case OtherMode =>
    }
  }

  /** The length chain of `scoreEngagementPrediction`. */
  method CreditEngagementLength(score: int, insights: seq<string>, len: nat)
    returns (score': int, insights': seq<string>)
    ensures SubScore(score', insights') == SubScore(score, insights).Then(EngagementLengthRule(len))
  {
    score', insights' := score, insights;
    if len > 350 {
      score' := score - 5;
      insights' := insights + [LongEngagementInsight];
    } else if len < 50 {
      score' := score - 5;
      insights' := insights + [BriefEngagementInsight];
    }
  }

  method CreditEngagementDiscussion(score: int, insights: seq<string>, g: EngagementSignals)
    returns (score': int, insights': seq<string>)
    ensures SubScore(score', insights') == EngagementDiscussion(SubScore(score, insights), g)
  {
    score', insights' := CreditQuestion(score, insights, g);
    score', insights' := Credit(score', insights', g.relatable, 15, RelatableInsight);
    score', insights' := Credit(score', insights', g.opinion, 12, OpinionInsight);
  }

  method CreditEngagementHooks(score: int, insights: seq<string>, g: EngagementSignals)
    returns (score': int, insights': seq<string>)
    ensures SubScore(score', insights') == EngagementHooks(SubScore(score, insights), g)
  {
    score', insights' := CreditTiered(score, insights, g.valueCount, 15, HighValueInsight, 8, ProvidesValueInsight);
    score', insights' := Credit(score', insights', g.story, 10, StorytellingInsight);
    score', insights' := CreditTiered(score', insights', g.emotionCount, 12, StrongEmotionInsight, 6, EmotionInsight);
  }

  method CreditEngagementAdjustments(score: int, insights: seq<string>, g: EngagementSignals, mode: ContentMode)
    returns (score': int, insights': seq<string>)
    ensures SubScore(score', insights') == EngagementAdjustments(SubScore(score, insights), g, mode)
  {
    score', insights' := CreditMode(score, insights, g, mode);
    score', insights' := Credit(score', insights', g.selfPromotion, -8, SelfPromotionInsight);
    score', insights' := CreditEngagementLength(score', insights', g.length);
  }

  /** The body of `scoreEngagementPrediction` once the signals are known:
      base 40, the rules in order with the mode switch among them, clamped. */
  method ApplyEngagement(g: EngagementSignals, mode: ContentMode) returns (score: int, insights: seq<string>)
    ensures SubScore(score, insights) == EngagementRules(g, mode).Clamped()
  {
    score := 40;
    insights := [];
    score, insights := CreditEngagementDiscussion(score, insights, g);
    score, insights := CreditEngagementHooks(score, insights, g);
    score, insights := CreditEngagementAdjustments(score, insights, g, mode);
    score := Min(100, Max(0, score));
  }

  /** `scoreEngagementPrediction` */
  method ScoreEngagementPrediction(tweet: string, mode: ContentMode) returns (score: int, insights: seq<string>)
    ensures SubScore(score, insights) == Engagement(tweet, mode)
    ensures 0 <= score <= 100
  {
    score, insights := ApplyEngagement(DetectEngagement(tweet), mode);
  }

  // ---------------------------------------------------------------------
  // Quality signals

  /** `tweet.split(/\s+/).filter(word => word.length > 0)` */
  function Words(tweet: string): seq<string>
  {
    Filter(SplitRuns(tweet, IsSpace), (w: string) => |w| > 0)
  }

  /** The sum of `word.replace(/[^\w]/g, '').length` over the words. */
  function WordCharCount(words: seq<string>): nat
  {
    if words == [] then 0 else Count(words[0], IsWordChar) + WordCharCount(words[1..])
  }

  /** The number of words whose lower-case form is not a stop word. */
  function ContentWordCount(words: seq<string>): nat
  {
    Count(words, (w: string) => Lower(w) !in StopWords)
  }

  /** `tweet.split(/[.!?]+/).filter(s => s.trim().length > 0)` */
  function Sentences(tweet: string): seq<string>
  {
    Filter(SplitRuns(tweet, IsSentenceEnd), (s: string) => |Trim(s)| > 0)
  }

  /** `/^[A-Z]/` */
  predicate StartsUpper(tweet: string)
  {
    |tweet| > 0 && IsAsciiUpper(tweet[0])
  }

  /** What `scoreQualitySignals` measures in a tweet. */
  datatype QualitySignals = QualitySignals(
    startsUpper: bool,   // `/^[A-Z]/`
    wordChars: nat,      // the word characters of all words
    wordCount: nat,      // `words.length`
    contentWords: nat,   // the words that are not stop words
    specific: bool,      // a specific word occurs
    vagueCount: nat,     // how many vague words occur
    sentences: nat,      // `sentences.length`
    cliche: bool,        // a cliche occurs
    length: nat)         // `tweet.length`

  function DetectQuality(tweet: string): QualitySignals
  {
    var words := Words(tweet);
    var low := Lower(tweet);
    QualitySignals(
      StartsUpper(tweet), WordCharCount(words), |words|, ContentWordCount(words),
      ContainsAny(low, SpecificWords), CountContained(low, VagueWords),
      |Sentences(tweet)|, ContainsAny(low, Cliches), |tweet|)
  }

  /** The readability chain on the average word length `chars / words`.
      With no words the average is 0/0, NaN, which fails every comparison
      and lands in the final `else`. */
  function ReadabilityRule(chars: nat, words: nat): Option<Rule>
  {
    var avg := if words > 0 then chars as real / words as real else 0.0;
    if words > 0 && 3.5 <= avg <= 6.0 then Some(Rule(10, ExcellentReadabilityInsight))
    else if words > 0 && 3.0 <= avg <= 7.0 then Some(Rule(5, GoodReadabilityInsight))
    else if words > 0 && avg < 3.0 then Some(Rule(-5, SimpleWordsInsight))
    else Some(Rule(-8, ComplexWordsInsight))
  }

  /** The information-density chain on `content / words`; with no words the
      ratio is NaN and no rule fires. */
  function DensityRule(content: nat, words: nat): Option<Rule>
  {
    var ratio := if words > 0 then content as real / words as real else 0.0;
    if words > 0 && ratio >= 0.6 then Some(Rule(10, HighDensityInsight))
    else if words > 0 && ratio >= 0.5 then Some(Rule(5, GoodRatioInsight))
    else When(words > 0 && ratio < 0.4, -5, FillerInsight)
  }

  function SpecificityRule(specific: bool, vagueCount: nat): Option<Rule>
  {
    if specific && vagueCount == 0 then Some(Rule(12, SpecificInsight))
    else if specific then Some(Rule(6, MostlySpecificInsight))
    else When(vagueCount >= 2, -8, VagueInsight)
  }

  function SentenceRule(sentences: nat, length: nat): Option<Rule>
  {
    if 2 <= sentences <= 4 then Some(Rule(8, SentenceVarietyInsight))
    else When(sentences == 1 && length > 100, 3, SingleSentenceInsight)
  }

  function QualityLengthRule(n: nat): Option<Rule>
  {
    if 80 <= n <= 220 then Some(Rule(8, OptimalCharactersInsight))
    else When(50 <= n <= 280, 4, GoodContentLengthInsight)
  }

  /** The quality rule table from the base score 60 (unclamped); the scoring
      context is not consulted. */
  function QualityRules(g: QualitySignals): SubScore
  {
    SubScore(60, [])
      .Then(When(g.startsUpper, 5, CapitalizationInsight))
      .Then(ReadabilityRule(g.wordChars, g.wordCount))
      .Then(DensityRule(g.contentWords, g.wordCount))
      .Then(SpecificityRule(g.specific, g.vagueCount))
      .Then(SentenceRule(g.sentences, g.length))
      .Then(When(g.cliche, -10, ClicheInsight))
      .Then(QualityLengthRule(g.length))
  }

  function Quality(tweet: string): (r: SubScore)
    ensures 0 <= r.score <= 100
  {
    QualityRules(DetectQuality(tweet)).Clamped()
  }

  /** The readability chain of `scoreQualitySignals`. */
  method CreditReadability(score: int, insights: seq<string>, wordChars: nat, wordCount: nat)
    returns (score': int, insights': seq<string>)
    ensures SubScore(score', insights') == SubScore(score, insights).Then(ReadabilityRule(wordChars, wordCount))
  {
    if wordCount > 0 && 3.5 <= wordChars as real / wordCount as real <= 6.0 {
      score' := score + 10;
      insights' := insights + [ExcellentReadabilityInsight];
    } else if wordCount > 0 && 3.0 <= wordChars as real / wordCount as real <= 7.0 {
      score' := score + 5;
      insights' := insights + [GoodReadabilityInsight];
    } else if wordCount > 0 && wordChars as real / wordCount as real < 3.0 {
      score' := score - 5;
      insights' := insights + [SimpleWordsInsight];
    } else {
      score' := score - 8;
      insights' := insights + [ComplexWordsInsight];
    }
  }

  /** The information-density chain of `scoreQualitySignals`. */
  method CreditDensity(score: int, insights: seq<string>, contentWords: nat, wordCount: nat)
    returns (score': int, insights': seq<string>)
    ensures SubScore(score', insights') == SubScore(score, insights).Then(DensityRule(contentWords, wordCount))
  {
    score', insights' := score, insights;
    if wordCount > 0 && contentWords as real / wordCount as real >= 0.6 {
      score' := score + 10;
      insights' := insights + [HighDensityInsight];
    } else if wordCount > 0 && contentWords as real / wordCount as real >= 0.5 {
      score' := score + 5;
      insights' := insights + [GoodRatioInsight];
    } else if wordCount > 0 && contentWords as real / wordCount as real < 0.4 {
      score' := score - 5;
      insights' := insights + [FillerInsight];
    }
  }

  /** The specificity chain of `scoreQualitySignals`. */
  method CreditSpecificity(score: int, insights: seq<string>, hasSpecific: bool, vagueCount: nat)
    returns (score': int, insights': seq<string>)
    ensures SubScore(score', insights') == SubScore(score, insights).Then(SpecificityRule(hasSpecific, vagueCount))
  {
    score', insights' := score, insights;
    if hasSpecific && vagueCount == 0 {
      score' := score + 12;
      insights' := insights + [SpecificInsight];
    } else if hasSpecific {
      score' := score + 6;
      insights' := insights + [MostlySpecificInsight];
    } else if vagueCount >= 2 {
      score' := score - 8;
      insights' := insights + [VagueInsight];
    }
  }

  /** The sentence-structure chain of `scoreQualitySignals`. */
  method CreditSentences(score: int, insights: seq<string>, sentences: nat, len: nat)
    returns (score': int, insights': seq<string>)
    ensures SubScore(score', insights') == SubScore(score, insights).Then(SentenceRule(sentences, len))
  {
    score', insights' := score, insights;
    if sentences >= 2 && sentences <= 4 {
      score' := score + 8;
      insights' := insights + [SentenceVarietyInsight];
    } else if sentences == 1 && len > 100 {
      score' := score + 3;
      insights' := insights + [SingleSentenceInsight];
    }
  }

  /** The length chain of `scoreQualitySignals`. */
  method CreditQualityLength(score: int, insights: seq<string>, len: nat)
    returns (score': int, insights': seq<string>)
    ensures SubScore(score', insights') == SubScore(score, insights).Then(QualityLengthRule(len))
  {
    score', insights' := score, insights;
    if len >= 80 && len <= 220 {
      score' := score + 8;
      insights' := insights + [OptimalCharactersInsight];
    } else if len >= 50 && len <= 280 {
      score' := score + 4;
      insights' := insights + [GoodContentLengthInsight];
    }
  }

  /** The body of `scoreQualitySignals` once the measures are known: base
      60, the rules in order, clamped. */
  method ApplyQuality(g: QualitySignals) returns (score: int, insights: seq<string>)
    ensures SubScore(score, insights) == QualityRules(g).Clamped()
  {
    score := 60;
    insights := [];
    score, insights := Credit(score, insights, g.startsUpper, 5, CapitalizationInsight);
    score, insights := CreditReadability(score, insights, g.wordChars, g.wordCount);
    score, insights := CreditDensity(score, insights, g.contentWords, g.wordCount);
    score, insights := CreditSpecificity(score, insights, g.specific, g.vagueCount);
    score, insights := CreditSentences(score, insights, g.sentences, g.length);
    score, insights := Credit(score, insights, g.cliche, -10, ClicheInsight);
    score, insights := CreditQualityLength(score, insights, g.length);
    assert SubScore(score, insights) == QualityRules(g);

    score := Min(100, Max(0, score));
  }

  /** `scoreQualitySignals` */
  method ScoreQualitySignals(tweet: string) returns (score: int, insights: seq<string>)
    ensures SubScore(score, insights) == Quality(tweet)
    ensures 0 <= score <= 100
  {
    score, insights := ApplyQuality(DetectQuality(tweet));
  }

  // ---------------------------------------------------------------------
  // The total, the reasoning sentence and the insight categories

  /** `Math.round(a * 0.40 + e * 0.35 + q * 0.25)`, computed exactly:
      `Math.round` rounds half up, i.e. to the integer `r` with
      `r - 0.5 <= x < r + 0.5`. */
  function ViralScore(a: int, e: int, q: int): (r: int)
    ensures var x := 0.40 * a as real + 0.35 * e as real + 0.25 * q as real;
      r as real - 0.5 <= x < r as real + 0.5
    ensures 0 <= a <= 100 && 0 <= e <= 100 && 0 <= q <= 100 ==> 0 <= r <= 100
  {
    (40 * a + 35 * e + 25 * q + 50) / 100
  }

  const LowReasoning := "Low viral potential, significant revisions recommended"
  const BelowAverageReasoning := "Below average potential, needs improvement"
  const ModerateReasoning := "Moderate potential with room for optimization"
  const GoodReasoning := "Good viral potential with solid engagement drivers"
  const HighReasoning := "High viral potential with excellent fundamentals"
  const ExceptionalReasoning := "Exceptional viral potential with strong performance across all metrics"

  /** The reasoning sentences from the lowest band to the highest, and the
      totals at which each band above the lowest begins. */
  const ReasoningSentences: seq<string> := [LowReasoning, BelowAverageReasoning, ModerateReasoning, GoodReasoning, HighReasoning, ExceptionalReasoning]
  const ReasoningThresholds: seq<int> := [45, 55, 65, 75, 85]

  /** The band of a total: how many thresholds it reaches. */
  function Band(viralScore: int): (b: nat)
    ensures b <= 5
  {
    Bands.Band(viralScore, ReasoningThresholds)
  }

  /** The `if`/`else if` chain choosing the reasoning sentence. */
  function Reasoning(viralScore: int): string
  {
    if viralScore >= 85 then ExceptionalReasoning
    else if viralScore >= 75 then HighReasoning
    else if viralScore >= 65 then GoodReasoning
    else if viralScore >= 55 then ModerateReasoning
    else if viralScore >= 45 then BelowAverageReasoning
    else LowReasoning
  }

  /** The band, counted out. */
  lemma BandValue(v: int)
    ensures Band(v) == if v >= 85 then 5 else if v >= 75 then 4 else if v >= 65 then 3
                       else if v >= 55 then 2 else if v >= 45 then 1 else 0
  {
    var ts := ReasoningThresholds;
    assert Bands.ReachedFrom(v, ts, 4) == if v >= 85 then 1 else 0;
    assert Bands.ReachedFrom(v, ts, 2) == (if v >= 65 then 1 else 0) + (if v >= 75 then 1 else 0) + Bands.ReachedFrom(v, ts, 4);
  }

  /** The six reasoning sentences are distinct (their lengths differ). */
  lemma ReasoningSentencesDistinct()
    ensures forall j, k :: 0 <= j < k < |ReasoningSentences| ==> ReasoningSentences[j] != ReasoningSentences[k]
  {
    assert |LowReasoning| == 54 && |BelowAverageReasoning| == 42 && |ModerateReasoning| == 45;
    assert |GoodReasoning| == 50 && |HighReasoning| == 48 && |ExceptionalReasoning| == 70;
  }

  /** The chain picks the sentence of the band, and that sentence only. */
  lemma ReasoningByBand(viralScore: int)
    ensures Reasoning(viralScore) == ReasoningSentences[Band(viralScore)]
    ensures forall k :: 0 <= k < |ReasoningSentences| ==>
      (Reasoning(viralScore) == ReasoningSentences[k] <==> k == Band(viralScore))
  {
    BandValue(viralScore);
    ReasoningSentencesDistinct();
  }

  /** A higher total never gets a lower band. */
  lemma BandMonotone(v: int, w: int)
    requires v <= w
    ensures Band(v) <= Band(w)
  {
    Bands.BandMonotone(v, w, ReasoningThresholds);
  }

  /** The keywords, matched case-sensitively, that make an insight a
      strength or an improvement. */
  const StrengthKeywords: seq<string> := ["excellent", "strong", "good", "natural", "optimal", "authentic", "high-value", "builds", "creates", "enhances", "drives"]
  const ImprovementKeywords: seq<string> := ["reduce", "may", "too", "lacks", "overly", "excessive"]

  predicate IsStrength(insight: string) { ContainsAny(insight, StrengthKeywords) }
  predicate IsImprovement(insight: string) { ContainsAny(insight, ImprovementKeywords) }

  function Strengths(all: seq<string>): (r: seq<string>)
    ensures forall x :: x in r <==> x in all && IsStrength(x)
    ensures IsSubsequence(r, all)
  {
    FilterIsSubsequence(all, IsStrength);
    Filter(all, IsStrength)
  }

  function Improvements(all: seq<string>): (r: seq<string>)
    ensures forall x :: x in r <==> x in all && IsImprovement(x)
    ensures IsSubsequence(r, all)
  {
    FilterIsSubsequence(all, IsImprovement);
    Filter(all, IsImprovement)
  }

  /** "AI-typical language reduces authenticity" contains both 'reduce'
      and 'authentic', so it is both a strength and an improvement. */
  lemma AiTypicalInBoth()
    ensures IsStrength(AiTypicalInsight) && IsImprovement(AiTypicalInsight)
  {
    var pieces := ["AI-typical", "language", "reduces", "authenticity"];
    var tail := "reduces" + " " + "authenticity";
    assert JoinFrom(pieces, " ", 2) == tail;
    assert AiTypicalInsight == ("AI-typical" + " " + "language" + " ") + tail;
    assert MatchFrom("reduces", "reduce", 0, 0);
    ContainsWitness("reduces", "reduce", 0);
    ContainsInConcat("reduces", " " + "authenticity", "reduce");
    assert MatchFrom("authenticity", "authentic", 0, 0);
    ContainsWitness("authenticity", "authentic", 0);
    ContainsInConcat("reduces" + " ", "authenticity", "authentic");
    assert tail == "reduces" + (" " + "authenticity") == ("reduces" + " ") + "authenticity";
    ContainsInConcat("AI-typical" + " " + "language" + " ", tail, "reduce");
    ContainsInConcat("AI-typical" + " " + "language" + " ", tail, "authentic");
    assert "reduce" == ImprovementKeywords[0];
    assert "authentic" == StrengthKeywords[5];
    ContainsAnyIff(AiTypicalInsight, ImprovementKeywords);
    ContainsAnyIff(AiTypicalInsight, StrengthKeywords);
  }

  /** "Strong question format with direct engagement request" contains no
      keyword of either list (its 'Strong' is capitalised), so it is
      neither a strength nor an improvement. */
  lemma StrongQuestionInNeither()
    ensures !IsStrength(StrongQuestionInsight) && !IsImprovement(StrongQuestionInsight)
  {
    StrongQuestionNotStrength();
    StrongQuestionNotImprovement();
  }

  // Why no keyword occurs in "Strong question format with direct
  // engagement request": a keyword without a space can only occur inside
  // one of the seven words. Entry k of a keyword's witness string is a
  // letter of the keyword that word k lacks; '_' marks a word too short to
  // hold the keyword, which is checked directly.

  /** Witnesses for StrengthKeywords, keyword by keyword. For 'strong' the
      capital 'S' of "Strong" is why the first word lacks an 's'. */
  const StrengthWitnesses: seq<string> :=
    ["exeexxx", "srsssso", "dggggog", "aannnun", "pppoooo", "aauaaua", "hhhghhh", "bbbbbbb",
     "ccccacc", "eheenhn", "ddddvdd"]

  /** Witnesses for ImprovementKeywords, keyword by keyword. */
  const ImprovementWitnesses: seq<string> :=
    ["ererurd", "mmymmym", "___oooo", "lllllll", "vvvoooo", "exeexxx"]

  // Each table is checked a few keywords at a time, one lemma per slice,
  // which keeps every proof obligation small.

  lemma StrengthSlice1Missed()
    ensures forall k :: 0 <= k < 3 ==> !Contains(StrongQuestionInsight, StrengthKeywords[k])
  {
    NoneInJoin(StrongQuestionWords, StrengthKeywords[0..3], StrengthWitnesses[0..3]);
    NoneInSlice(StrongQuestionInsight, StrengthKeywords, 0, 3);
  }

  lemma StrengthSlice2Missed()
    ensures forall k :: 3 <= k < 6 ==> !Contains(StrongQuestionInsight, StrengthKeywords[k])
  {
    NoneInJoin(StrongQuestionWords, StrengthKeywords[3..6], StrengthWitnesses[3..6]);
    NoneInSlice(StrongQuestionInsight, StrengthKeywords, 3, 6);
  }

  lemma StrengthSlice3Missed()
    ensures forall k :: 6 <= k < 9 ==> !Contains(StrongQuestionInsight, StrengthKeywords[k])
  {
    NoneInJoin(StrongQuestionWords, StrengthKeywords[6..9], StrengthWitnesses[6..9]);
    NoneInSlice(StrongQuestionInsight, StrengthKeywords, 6, 9);
  }

  lemma StrengthSlice4Missed()
    ensures forall k :: 9 <= k < 11 ==> !Contains(StrongQuestionInsight, StrengthKeywords[k])
  {
    NoneInJoin(StrongQuestionWords, StrengthKeywords[9..11], StrengthWitnesses[9..11]);
    NoneInSlice(StrongQuestionInsight, StrengthKeywords, 9, 11);
  }

  lemma ImprovementSlice1Missed()
    ensures forall k :: 0 <= k < 3 ==> !Contains(StrongQuestionInsight, ImprovementKeywords[k])
  {
    NoneInJoin(StrongQuestionWords, ImprovementKeywords[0..3], ImprovementWitnesses[0..3]);
    NoneInSlice(StrongQuestionInsight, ImprovementKeywords, 0, 3);
  }

  lemma ImprovementSlice2Missed()
    ensures forall k :: 3 <= k < 6 ==> !Contains(StrongQuestionInsight, ImprovementKeywords[k])
  {
    NoneInJoin(StrongQuestionWords, ImprovementKeywords[3..6], ImprovementWitnesses[3..6]);
    NoneInSlice(StrongQuestionInsight, ImprovementKeywords, 3, 6);
  }

  lemma StrongQuestionNotStrength()
    ensures !IsStrength(StrongQuestionInsight)
  {
    StrengthSlice1Missed();
    StrengthSlice2Missed();
    StrengthSlice3Missed();
    StrengthSlice4Missed();
    NoneContained(StrongQuestionInsight, StrengthKeywords);
  }

  lemma StrongQuestionNotImprovement()
    ensures !IsImprovement(StrongQuestionInsight)
  {
    ImprovementSlice1Missed();
    ImprovementSlice2Missed();
    NoneContained(StrongQuestionInsight, ImprovementKeywords);
  }

  // ---------------------------------------------------------------------
  // Scoring one tweet and ranking a batch

  datatype Scores = Scores(authenticity: int, engagementPrediction: int, qualitySignals: int)
  datatype TweetInsights = TweetInsights(strengths: seq<string>, improvements: seq<string>, reasoning: string)
  datatype ScoredTweet = ScoredTweet(content: string, viralScore: int, scores: Scores, insights: TweetInsights)

  /** The insights of the three sub-scores, in that order. */
  function AllInsights(tweet: string, mode: ContentMode): seq<string>
  {
    Authenticity(tweet, mode).insights + Engagement(tweet, mode).insights + Quality(tweet).insights
  }

  /** Assembles the result from the three sub-scores: the weighted total,
      the categorised insights and the reasoning sentence. */
  function Combine(tweet: string, a: SubScore, e: SubScore, q: SubScore): (r: ScoredTweet)
    ensures r.content == tweet
    ensures r.scores == Scores(a.score, e.score, q.score)
    ensures var x := 0.40 * a.score as real + 0.35 * e.score as real + 0.25 * q.score as real;
      r.viralScore as real - 0.5 <= x < r.viralScore as real + 0.5
    ensures 0 <= a.score <= 100 && 0 <= e.score <= 100 && 0 <= q.score <= 100 ==> 0 <= r.viralScore <= 100
    ensures IsSubsequence(r.insights.strengths, a.insights + e.insights + q.insights)
    ensures IsSubsequence(r.insights.improvements, a.insights + e.insights + q.insights)
    ensures forall x :: x in r.insights.strengths <==> x in a.insights + e.insights + q.insights && IsStrength(x)
    ensures forall x :: x in r.insights.improvements <==> x in a.insights + e.insights + q.insights && IsImprovement(x)
    ensures r.insights.reasoning == ReasoningSentences[Band(r.viralScore)]
  {
    var viralScore := ViralScore(a.score, e.score, q.score);
    var all := a.insights + e.insights + q.insights;
    ReasoningByBand(viralScore);
    ScoredTweet(tweet, viralScore, Scores(a.score, e.score, q.score),
      TweetInsights(Strengths(all), Improvements(all), Reasoning(viralScore)))
  }

  /** `scoreTweetViralPotential` */
  function ScoreTweetViralPotential(tweet: string, context: ScoringContext): (r: ScoredTweet)
    ensures r.content == tweet
    ensures r.scores == Scores(Authenticity(tweet, context.contentMode).score,
      Engagement(tweet, context.contentMode).score, Quality(tweet).score)
    ensures 0 <= r.scores.authenticity <= 100 && 0 <= r.scores.engagementPrediction <= 100
    ensures 0 <= r.scores.qualitySignals <= 100
    ensures 0 <= r.viralScore <= 100
    ensures var x := 0.40 * r.scores.authenticity as real + 0.35 * r.scores.engagementPrediction as real
                   + 0.25 * r.scores.qualitySignals as real;
      r.viralScore as real - 0.5 <= x < r.viralScore as real + 0.5
    ensures IsSubsequence(r.insights.strengths, AllInsights(tweet, context.contentMode))
    ensures IsSubsequence(r.insights.improvements, AllInsights(tweet, context.contentMode))
    ensures forall x :: x in r.insights.strengths <==> x in AllInsights(tweet, context.contentMode) && IsStrength(x)
    ensures forall x :: x in r.insights.improvements <==> x in AllInsights(tweet, context.contentMode) && IsImprovement(x)
    ensures r.insights.reasoning == ReasoningSentences[Band(r.viralScore)]
  {
    Combine(tweet, Authenticity(tweet, context.contentMode), Engagement(tweet, context.contentMode), Quality(tweet))
  }

  function ViralKey(t: ScoredTweet): int { t.viralScore }

  /** `tweets.map(tweet => scoreTweetViralPotential(tweet, context))` */
  function ScoreAll(tweets: seq<string>, context: ScoringContext): (r: seq<ScoredTweet>)
    ensures |r| == |tweets|
    ensures forall i :: 0 <= i < |tweets| ==> r[i] == ScoreTweetViralPotential(tweets[i], context)
  {
    seq(|tweets|, i requires 0 <= i < |tweets| => ScoreTweetViralPotential(tweets[i], context))
  }

  /** `rankTweetsByViralPotential`: the scored tweets, highest total first;
      the sort is stable, so equal totals keep their input order. */
  function RankTweetsByViralPotential(tweets: seq<string>, context: ScoringContext): (r: seq<ScoredTweet>)
    ensures |r| == |tweets|
    ensures multiset(r) == multiset(ScoreAll(tweets, context))
    ensures SortedDesc(r, ViralKey)
    ensures forall v :: WithKey(r, ViralKey, v) == WithKey(ScoreAll(tweets, context), ViralKey, v)
  {
    var scored := ScoreAll(tweets, context);
    SortIsSorted(scored, ViralKey);
    forall v ensures WithKey(SortByKeyDesc(scored, ViralKey), ViralKey, v) == WithKey(scored, ViralKey, v) {
      SortIsStable(scored, ViralKey, v);
    }
    SortByKeyDesc(scored, ViralKey)
  }

  // ---------------------------------------------------------------------
  // Properties of the rule tables

  /** Of the mode switch, at most one case runs and it adds 10 points,
      except `valueFirst`, which adds 12; any other mode adds nothing. */
  lemma ModeBonus(mode: ContentMode, g: EngagementSignals)
    ensures Points(ModeRule(mode, g)) == 0 || Points(ModeRule(mode, g)) == 10 || Points(ModeRule(mode, g)) == 12
    ensures Points(ModeRule(mode, g)) == 12 <==> mode == ValueFirst && g.valueCount > 0
    ensures Points(ModeRule(mode, g)) == 10 <==>
      (mode == CommunityEngagement && (g.directQuestion || g.engagementPhrase)) ||
      (mode == ThoughtLeadership && (g.opinion || g.valueCount > 0)) ||
      (mode == PersonalBrand && (g.personal || g.story))
    ensures ModeRule(mode, g).None? <==> Points(ModeRule(mode, g)) == 0
    ensures mode == OtherMode ==> ModeRule(mode, g).None?
  {
  }

  /** Apart from the mode bonus, the engagement score does not depend on
      the mode. */
  lemma EngagementModeDifference(g: EngagementSignals, m1: ContentMode, m2: ContentMode)
    ensures EngagementRules(g, m1).score - Points(ModeRule(m1, g))
         == EngagementRules(g, m2).score - Points(ModeRule(m2, g))
  {
  }

  /** The only mode-dependent authenticity rule is the +8 for collective
      pronouns in `communityEngagement`; all other modes score alike. */
  lemma AuthenticityModeDifference(g: AuthenticitySignals, m: ContentMode)
    ensures m != CommunityEngagement ==> AuthenticityRules(g, m) == AuthenticityRules(g, ThoughtLeadership)
    ensures AuthenticityRules(g, CommunityEngagement).score
         == AuthenticityRules(g, ThoughtLeadership).score + (if g.collective then 8 else 0)
  {
  }

  /** The authenticity length bands are exclusive: +10 for 60-200
      characters, +5 for the rest of 40-280, -8 below 40 and nothing above
      280. */
  lemma AuthenticityLengthBands(n: nat)
    ensures Points(AuthenticityLengthRule(n)) == 10 <==> 60 <= n <= 200
    ensures Points(AuthenticityLengthRule(n)) == 5 <==> (40 <= n < 60 || 200 < n <= 280)
    ensures Points(AuthenticityLengthRule(n)) == -8 <==> n < 40
    ensures AuthenticityLengthRule(n).None? <==> n > 280
  {
  }

  /** No word table holds the empty string. */
  lemma VoiceTablesNonEmpty()
    ensures "" !in PersonalPronouns && "" !in CollectivePronouns && "" !in ConversationalWords
    ensures "" !in AuthenticWords
  {
  }

  lemma PenaltyTablesNonEmpty()
    ensures "" !in AiTypicalPhrases && "" !in CorporatePhrases && "" !in PromotionalWords
    ensures "" !in PunctuationMarks
  {
  }

  lemma EngagementTablesNonEmpty()
    ensures "" !in EngagementPhrases && "" !in RelatablePhrases && "" !in OpinionWords
    ensures "" !in ValueWords && "" !in StorytellingWords && "" !in EmotionWords
  {
  }

  lemma QualityTablesNonEmpty()
    ensures "" !in SpecificWords && "" !in VagueWords && "" !in Cliches
  {
  }

  /** The empty tweet contains none of the authenticity words. */
  lemma DetectAuthenticityEmpty(tweet: string)
    requires |tweet| == 0
    ensures DetectAuthenticity(tweet) == AuthenticitySignals(false, false, 0, false, false, false, 0, 0, 0, false)
  {
    VoiceTablesNonEmpty();
    PenaltyTablesNonEmpty();
    var low := Lower(tweet);
    NothingInEmpty(low, PersonalPronouns);
    NothingInEmpty(low, CollectivePronouns);
    NothingInEmpty(low, ConversationalWords);
    NothingInEmpty(low, AuthenticWords);
    NothingInEmpty(low, AiTypicalPhrases);
    NothingInEmpty(low, CorporatePhrases);
    NothingInEmpty(low, PromotionalWords);
    NothingInEmpty(tweet, PunctuationMarks);
  }

  /** With no signal, only the brief-length penalty applies. */
  lemma NoAuthenticitySignals(g: AuthenticitySignals, mode: ContentMode)
    requires g == AuthenticitySignals(false, false, 0, false, false, false, 0, 0, 0, false)
    ensures AuthenticityRules(g, mode) == SubScore(42, [BriefExpressionInsight])
  {
  }

  /** The empty tweet loses 8 authenticity points for its length, and no
      other authenticity rule fires. */
  lemma EmptyAuthenticity(tweet: string, mode: ContentMode)
    requires |tweet| == 0
    ensures Authenticity(tweet, mode).score == 42
  {
    DetectAuthenticityEmpty(tweet);
    NoAuthenticitySignals(DetectAuthenticity(tweet), mode);
  }

  /** The empty tweet contains none of the engagement words. */
  lemma DetectEngagementEmpty(tweet: string)
    requires |tweet| == 0
    ensures DetectEngagement(tweet) == EngagementSignals(false, false, false, false, 0, false, 0, false, false, 0)
  {
    VoiceTablesNonEmpty();
    EngagementTablesNonEmpty();
    var low := Lower(tweet);
    NothingInEmpty(low, EngagementPhrases);
    NothingInEmpty(low, RelatablePhrases);
    NothingInEmpty(low, OpinionWords);
    NothingInEmpty(low, ValueWords);
    NothingInEmpty(low, StorytellingWords);
    NothingInEmpty(low, EmotionWords);
    NothingInEmpty(low, PersonalPronouns);
    NothingInEmpty(tweet, ["?"]);
    NothingInEmpty(low, ["follow me", "subscribe"]);
  }

  /** With no signal, only the brief-length penalty applies, in every mode. */
  lemma NoEngagementSignals(g: EngagementSignals, mode: ContentMode)
    requires g == EngagementSignals(false, false, false, false, 0, false, 0, false, false, 0)
    ensures EngagementRules(g, mode) == SubScore(35, [BriefEngagementInsight])
  {
  }

  /** The empty tweet loses 5 engagement points for its length, in every
      mode. */
  lemma EmptyEngagement(tweet: string, mode: ContentMode)
    requires |tweet| == 0
    ensures Engagement(tweet, mode).score == 35
  {
    DetectEngagementEmpty(tweet);
    NoEngagementSignals(DetectEngagement(tweet), mode);
  }

  /** The empty tweet has no words and no sentences. */
  lemma DetectQualityEmpty(tweet: string)
    requires |tweet| == 0
    ensures DetectQuality(tweet) == QualitySignals(false, 0, 0, 0, false, 0, 0, false, 0)
  {
    QualityTablesNonEmpty();
    var low := Lower(tweet);
    NothingInEmpty(low, SpecificWords);
    NothingInEmpty(low, VagueWords);
    NothingInEmpty(low, Cliches);
    var runs := SplitRuns(tweet, IsSpace);
    assert runs == [""];
    assert Filter(runs[1..], (w: string) => |w| > 0) == [];
    assert Words(tweet) == [];
    var parts := SplitRuns(tweet, IsSentenceEnd);
    assert parts == [""];
    assert Trim("") == "";
    assert Filter(parts[1..], (s: string) => |Trim(s)| > 0) == [];
    assert Sentences(tweet) == [];
  }

  /** With no words, both word ratios are 0/0: the readability chain ends
      in its final `else` and no density rule fires. */
  lemma NoQualitySignals(g: QualitySignals)
    requires g == QualitySignals(false, 0, 0, 0, false, 0, 0, false, 0)
    ensures QualityRules(g) == SubScore(52, [ComplexWordsInsight])
  {
  }

  /** With no words the average word length is 0/0, which fails every
      comparison, so the final `else` takes 8 points; the content ratio is
      also 0/0 and no density rule fires. */
  lemma EmptyQuality(tweet: string)
    requires |tweet| == 0
    ensures Quality(tweet).score == 52
  {
    DetectQualityEmpty(tweet);
    NoQualitySignals(DetectQuality(tweet));
  }

  /** Sub-scores 42, 35 and 52 total 42: 16.8 + 12.25 + 13 = 42.05. */
  lemma CombineLow(tweet: string, a: SubScore, e: SubScore, q: SubScore)
    requires a.score == 42 && e.score == 35 && q.score == 52
    ensures Combine(tweet, a, e, q).viralScore == 42
    ensures Combine(tweet, a, e, q).insights.reasoning == LowReasoning
  {
    BandValue(42);
  }

  /** The empty tweet scores 42/35/52 and totals 42, the low-potential band,
      whatever the context. */
  lemma EmptyTweet(tweet: string, context: ScoringContext)
    requires |tweet| == 0
    ensures var r := ScoreTweetViralPotential(tweet, context);
      r.scores == Scores(42, 35, 52) && r.viralScore == 42 && r.insights.reasoning == LowReasoning
  {
    EmptyAuthenticity(tweet, context.contentMode);
    EmptyEngagement(tweet, context.contentMode);
    EmptyQuality(tweet);
    var m := context.contentMode;
    CombineLow(tweet, Authenticity(tweet, m), Engagement(tweet, m), Quality(tweet));
  }
}
