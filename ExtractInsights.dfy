/** The checks and clean-up around the language-model call that extracts
    insights from a transcript: the transcript's length bounds, the
    filtering, trimming and numbering of the insights in the model's reply,
    and the fallback to transcript sentences when fewer than three usable
    insights come back. The model call itself is not part of this model:
    its parsed reply is a parameter. */
module ExtractInsights {
  import opened Wrappers
  import opened Seqs
  import opened Text

  const MinTranscriptLength := 500
  const MaxTranscriptLength := 50000
  const MaxInsights := 5
  const MinInsights := 3
  const FallbackCount := 3
  const FallbackCut := 200
  const DefaultInsightType := "key_point"
  const DefaultSummary := "Key insights extracted from transcript"

  /** An insight as the model returned it; every field may be missing. */
  datatype RawInsight = RawInsight(content: Option<string>, speakerAttribution: Option<string>, insightType: Option<string>)

  /** The parsed reply; `insights` is missing when the reply had no array. */
  datatype ParsedReply = ParsedReply(insights: Option<seq<RawInsight>>, contentSummary: Option<string>)

  datatype Insight = Insight(content: string, speakerAttribution: Option<string>, insightType: string, orderIndex: int)

  datatype Extraction = Extraction(insights: seq<Insight>, totalExtracted: int, contentSummary: string)

  datatype ExtractError = TranscriptTooShort | TranscriptTooLong | InvalidReply
  {
    function Status(): int
    {
      match this
      case TranscriptTooShort => 400
      case TranscriptTooLong => 400
      case InvalidReply => 500
    }
  }

  /** `value || fallback` for a string: a missing or empty string takes the
      fallback. */
  function OrElse(value: Option<string>, fallback: string): string
  {
    if value.Some? && value.value != "" then value.value else fallback
  }

  /** `value || null` for a string. */
  function OrNull(value: Option<string>): (r: Option<string>)
    ensures r.Some? ==> r.value != ""
  {
    if value.Some? && value.value != "" then value else None
  }

  /** The two bounds on the transcript, checked in this order: a missing
      transcript, or one under 500 characters once trimmed, then one over
      50000 characters as sent. */
  function ValidateTranscript(transcript: Option<string>): (r: Result<string, ExtractError>)
    ensures r == Err(TranscriptTooShort) <==> transcript.None? || |Trim(transcript.value)| < MinTranscriptLength
    ensures r == Err(TranscriptTooLong) <==>
      transcript.Some? && |Trim(transcript.value)| >= MinTranscriptLength && |transcript.value| > MaxTranscriptLength
    ensures r.Ok? ==> transcript == Some(r.value) && MinTranscriptLength <= |Trim(r.value)| && |r.value| <= MaxTranscriptLength
  {
    if transcript.None? || |Trim(transcript.value)| < MinTranscriptLength then Err(TranscriptTooShort)
    else if |transcript.value| > MaxTranscriptLength then Err(TranscriptTooLong)
    else Ok(transcript.value)
  }

  /** `insight.content && insight.content.trim().length > 10` */
  predicate Usable(raw: RawInsight)
  {
    raw.content.Some? && |Trim(raw.content.value)| > 10
  }

  /** The usable insights, in order, at most five. */
  function Kept(raws: seq<RawInsight>): (r: seq<RawInsight>)
    ensures |r| == if |Filter(raws, Usable)| < MaxInsights then |Filter(raws, Usable)| else MaxInsights
    ensures r == Filter(raws, Usable)[..|r|]
    ensures forall i :: 0 <= i < |r| ==> Usable(r[i])
  {
    var kept := Take(Filter(raws, Usable), MaxInsights);
    assert forall i :: 0 <= i < |kept| ==> kept[i] in Filter(raws, Usable);
    kept
  }

  /** Filter, cut to five and number the insights: contents trimmed, a
      missing speaker becomes null and a missing type 'key_point'. */
  function ValidInsights(raws: seq<RawInsight>): (r: seq<Insight>)
    ensures |r| == |Kept(raws)| <= MaxInsights
    ensures forall i :: 0 <= i < |r| ==>
      && r[i].orderIndex == i
      && r[i].content == Trim(Kept(raws)[i].content.value)
      && r[i].speakerAttribution == OrNull(Kept(raws)[i].speakerAttribution)
      && r[i].insightType == OrElse(Kept(raws)[i].insightType, DefaultInsightType)
  {
    var kept := Kept(raws);
    seq(|kept|, i requires 0 <= i < |kept| =>
      Insight(Trim(kept[i].content.value), OrNull(kept[i].speakerAttribution),
              OrElse(kept[i].insightType, DefaultInsightType), i))
  }

  /** Every kept insight is trimmed and longer than 10 characters. */
  lemma ValidInsightsTrimmed(raws: seq<RawInsight>)
    ensures forall i :: 0 <= i < |ValidInsights(raws)| ==>
      Trim(ValidInsights(raws)[i].content) == ValidInsights(raws)[i].content && |ValidInsights(raws)[i].content| > 10
  {
    var r := ValidInsights(raws);
    forall i | 0 <= i < |r|
      ensures Trim(r[i].content) == r[i].content && |r[i].content| > 10
    {
      TrimIdempotent(Kept(raws)[i].content.value);
    }
  }

  /** The transcript's sentence pieces that are longer than 50 characters
      once trimmed. */
  function Segments(transcript: string): seq<string>
  {
    Filter(SplitRuns(transcript, IsSentenceEnd), (s: string) => |Trim(s)| > 50)
  }

  /** `segment.trim().substring(0, 200) + (segment.length > 200 ? '...' : '')`:
      the ellipsis is decided on the untrimmed length. */
  function FallbackContent(segment: string): string
  {
    Take(Trim(segment), FallbackCut) + (if |segment| > FallbackCut then "..." else "")
  }

  /** The first three segments as insights of type 'key_point' without a
      speaker. */
  function Fallback(transcript: string): (r: seq<Insight>)
    ensures |r| == if |Segments(transcript)| < FallbackCount then |Segments(transcript)| else FallbackCount
    ensures forall i :: 0 <= i < |r| ==>
      && r[i].orderIndex == i
      && r[i].content == FallbackContent(Segments(transcript)[i])
      && r[i].speakerAttribution.None?
      && r[i].insightType == DefaultInsightType
  {
    var first := Take(Segments(transcript), FallbackCount);
    seq(|first|, i requires 0 <= i < |first| => Insight(FallbackContent(first[i]), None, DefaultInsightType, i))
  }

  /** A fallback insight holds more than 50 characters of its segment, at
      most 200 of them and possibly '...', and no sentence end mark. */
  lemma FallbackContentShape(segment: string)
    requires |Trim(segment)| > 50
    requires forall c :: c in segment ==> !IsSentenceEnd(c)
    ensures var c := FallbackContent(segment);
      50 < |c| <= FallbackCut + 3 && (|segment| <= FallbackCut ==> c == Trim(segment))
    ensures var c := Take(Trim(segment), FallbackCut);
      c == FallbackContent(segment)[..|c|] && forall ch :: ch in c ==> !IsSentenceEnd(ch)
  {
    var t := Trim(segment);
    var lo := TrimIsWindow(segment);
    var c := Take(t, FallbackCut);
    forall ch | ch in c ensures !IsSentenceEnd(ch) {
      var j :| 0 <= j < |c| && c[j] == ch;
      assert ch == segment[lo + j];
    }
  }

  lemma FallbackShape(transcript: string)
    ensures forall i :: 0 <= i < |Fallback(transcript)| ==>
      50 < |Fallback(transcript)[i].content| <= FallbackCut + 3
  {
    var segs := Segments(transcript);
    forall i | 0 <= i < |Fallback(transcript)|
      ensures 50 < |Fallback(transcript)[i].content| <= FallbackCut + 3
    {
      assert segs[i] in segs;
      assert segs[i] in SplitRuns(transcript, IsSentenceEnd);
      FallbackContentShape(segs[i]);
    }
  }

  /** The reply's clean-up: at least three usable insights are returned as
      they are, otherwise the fallback replaces them; the count is the
      length of the returned list. A reply without an insight array is an
      error. */
  function SanitizeReply(transcript: string, reply: ParsedReply): (r: Result<Extraction, ExtractError>)
    ensures r.Err? <==> reply.insights.None?
    ensures r.Err? ==> r.error == InvalidReply
    ensures r.Ok? ==> r.value.totalExtracted == |r.value.insights|
    ensures r.Ok? ==> r.value.contentSummary == OrElse(reply.contentSummary, DefaultSummary)
    ensures r.Ok? ==> forall i :: 0 <= i < |r.value.insights| ==> r.value.insights[i].orderIndex == i
    ensures r.Ok? && |ValidInsights(reply.insights.value)| >= MinInsights ==>
      r.value.insights == ValidInsights(reply.insights.value) && |r.value.insights| <= MaxInsights
    ensures r.Ok? && |ValidInsights(reply.insights.value)| < MinInsights ==>
      r.value.insights == Fallback(transcript) && |r.value.insights| <= FallbackCount
  {
    if reply.insights.None? then Err(InvalidReply)
    else
      var valid := ValidInsights(reply.insights.value);
      var insights := if |valid| < MinInsights then Fallback(transcript) else valid;
      Ok(Extraction(insights, |insights|, OrElse(reply.contentSummary, DefaultSummary)))
  }

  /** The route after its key check: validate the transcript, then (given
      the model's parsed reply) clean the reply up. */
  function ExtractFromTranscript(transcript: Option<string>, reply: ParsedReply): (r: Result<Extraction, ExtractError>)
    ensures ValidateTranscript(transcript).Err? ==> r == Err(ValidateTranscript(transcript).error)
    ensures ValidateTranscript(transcript).Ok? ==> r == SanitizeReply(transcript.value, reply)
    ensures r.Ok? ==> r.value.totalExtracted == |r.value.insights| <= MaxInsights
  {
    match ValidateTranscript(transcript)
    case Err(e) => Err(e)
    case Ok(t) => SanitizeReply(t, reply)
  }
}
