/** How a viral score is shown: the colour classes and the label the score
    display and the score badge pick from four thresholds (50, 60, 70, 80). */
module ScoreDisplay {
  import Bands

  const DisplayThresholds: seq<int> := [50, 60, 70, 80]

  /** The labels from the lowest band to the highest. */
  const Labels: seq<string> := ["Low", "Below Average", "Moderate", "Good", "Excellent"]

  /** The colour of each band, from the lowest to the highest. */
  const Hues: seq<string> := ["red", "orange", "yellow", "blue", "green"]

  /** The text, background and border classes of one colour, as in
      'text-green-600 bg-green-50 border-green-200'. */
  function ColorClasses(hue: string): (r: string)
    ensures |r| == 28 + 3 * |hue|
  {
    "text-" + hue + "-600 bg-" + hue + "-50 border-" + hue + "-200"
  }

  /** Different colours give different class strings. */
  lemma ColorClassesInjective(a: string, b: string)
    requires ColorClasses(a) == ColorClasses(b)
    ensures a == b
  {
    assert |a| == |b|;
    var rest := "-600 bg-" + a + "-50 border-" + a + "-200";
    assert ColorClasses(a) == "text-" + a + rest;
    assert ColorClasses(a)[5..5 + |a|] == a;
    assert ColorClasses(b)[5..5 + |b|] == b;
  }

  lemma HuesDistinct()
    ensures forall j, k :: 0 <= j < k < |Hues| ==> Hues[j] != Hues[k]
  {
    assert |Hues[0]| == 3 && |Hues[1]| == 6 && |Hues[2]| == 6 && |Hues[3]| == 4 && |Hues[4]| == 5;
    assert Hues[1][0] != Hues[2][0];
  }

  /** The display band of a score: how many of the thresholds it reaches. */
  function DisplayBand(score: int): (b: nat)
    ensures b <= 4
  {
    Bands.Band(score, DisplayThresholds)
  }

  lemma DisplayBandValue(score: int)
    ensures DisplayBand(score) == if score >= 80 then 4 else if score >= 70 then 3
                                  else if score >= 60 then 2 else if score >= 50 then 1 else 0
  {
    var ts := DisplayThresholds;
    assert Bands.ReachedFrom(score, ts, 3) == if score >= 80 then 1 else 0;
    assert Bands.ReachedFrom(score, ts, 1) == (if score >= 60 then 1 else 0) + (if score >= 70 then 1 else 0)
                                             + Bands.ReachedFrom(score, ts, 3);
  }

  /** `getScoreColor` of the score display. */
  function ScoreColor(score: int): (r: string)
    ensures exists h :: h in Hues && r == ColorClasses(h)
  {
    if score >= 80 then ColorClasses("green")
    else if score >= 70 then ColorClasses("blue")
    else if score >= 60 then ColorClasses("yellow")
    else if score >= 50 then ColorClasses("orange")
    else ColorClasses("red")
  }

  /** `getScoreLabel` of the score display. */
  function ScoreLabel(score: int): (r: string)
    ensures r in Labels
  {
    if score >= 80 then "Excellent"
    else if score >= 70 then "Good"
    else if score >= 60 then "Moderate"
    else if score >= 50 then "Below Average"
    else "Low"
  }

  /** `getScoreColor` of the score badge, a second copy of the chain in
      the source: it agrees with the display's colour for every score. */
  function BadgeColor(score: int): (r: string)
    ensures r == ScoreColor(score)
    ensures r == ColorClasses(Hues[DisplayBand(score)])
  {
    ColorByBand(score);
    if score >= 80 then ColorClasses("green")
    else if score >= 70 then ColorClasses("blue")
    else if score >= 60 then ColorClasses("yellow")
    else if score >= 50 then ColorClasses("orange")
    else ColorClasses("red")
  }

  /** The label is the one of the score's band, and no other label is. */
  lemma LabelByBand(score: int)
    ensures ScoreLabel(score) == Labels[DisplayBand(score)]
    ensures forall k :: 0 <= k < |Labels| ==> (ScoreLabel(score) == Labels[k] <==> k == DisplayBand(score))
  {
    DisplayBandValue(score);
    assert |Labels[0]| == 3 && |Labels[1]| == 13 && |Labels[2]| == 8 && |Labels[3]| == 4 && |Labels[4]| == 9;
  }

  /** The colour is the one of the score's band, and no other colour is. */
  lemma ColorByBand(score: int)
    ensures ScoreColor(score) == ColorClasses(Hues[DisplayBand(score)])
    ensures forall k :: 0 <= k < |Hues| ==> (ScoreColor(score) == ColorClasses(Hues[k]) <==> k == DisplayBand(score))
  {
    DisplayBandValue(score);
    HuesDistinct();
    forall k | 0 <= k < |Hues| && ScoreColor(score) == ColorClasses(Hues[k])
      ensures k == DisplayBand(score)
    {
      ColorClassesInjective(Hues[DisplayBand(score)], Hues[k]);
    }
  }

  /** The colour and the label use the same thresholds: two scores get the
      same colour exactly when they get the same label. */
  lemma ColorAgreesWithLabel(s: int, t: int)
    ensures ScoreColor(s) == ScoreColor(t) <==> ScoreLabel(s) == ScoreLabel(t)
  {
    ColorByBand(s);
    ColorByBand(t);
    LabelByBand(s);
    LabelByBand(t);
  }

  /** The rank of a label, 0 for 'Low' up to 4 for 'Excellent'. */
  function LabelRank(name: string): (r: int)
    ensures forall k :: 0 <= k < |Labels| && name == Labels[k] ==> r == k
  {
    if name == "Excellent" then 4
    else if name == "Good" then 3
    else if name == "Moderate" then 2
    else if name == "Below Average" then 1
    else if name == "Low" then 0
    else -1
  }

  /** A higher score never gets a lower-ranked label. */
  lemma LabelMonotone(s: int, t: int)
    requires s <= t
    ensures LabelRank(ScoreLabel(s)) <= LabelRank(ScoreLabel(t))
  {
    Bands.BandMonotone(s, t, DisplayThresholds);
    LabelByBand(s);
    LabelByBand(t);
  }
}
