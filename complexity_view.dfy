/**
 * The complexity panel's reading of a score: its colour class, its label
 * and its sentence, each a fixed threshold chain, and the gate that shows
 * the error view instead of the results. Scores are modelled as integers:
 * the server's own estimate is a whole number from 1 to 10, while a score
 * taken from the language model's answer is passed on unchecked and may be
 * fractional or out of range.
 */
module ComplexityView {
  import opened Wrappers

  /** How many of the label thresholds 2, 4, 6 and 8 the score is above. */
  function LabelBand(score: int): (b: nat)
    ensures b <= 4
  {
    (if score > 2 then 1 else 0) + (if score > 4 then 1 else 0)
      + (if score > 6 then 1 else 0) + (if score > 8 then 1 else 0)
  }

  /** How many of the colour thresholds 3 and 6 the score is above. */
  function ColourBand(score: int): (b: nat)
    ensures b <= 2
  {
    (if score > 3 then 1 else 0) + (if score > 6 then 1 else 0)
  }

  const ColourClasses: seq<string> := ["score-low", "score-medium", "score-high"]

  const Labels: seq<string> := ["Very Simple", "Simple", "Moderate Complexity", "Complex", "Very Complex"]

  const Descriptions: seq<string> := [
    "very straightforward and easy to understand",
    "relatively simple with clear patterns",
    "moderately complex with some challenging elements",
    "quite complex and would benefit from simplification",
    "highly complex and may be difficult to maintain"]

  /** `getScoreColorClass`: the class of the score's colour band. */
  function ScoreColorClass(score: int): (c: string)
    ensures c == ColourClasses[ColourBand(score)]
  {
    if score <= 3 then "score-low"
    else if score <= 6 then "score-medium"
    else "score-high"
  }

  /** `getComplexityLabel`: the label of the score's band. */
  function ComplexityLabel(score: int): (l: string)
    ensures l == Labels[LabelBand(score)]
  {
    if score <= 2 then "Very Simple"
    else if score <= 4 then "Simple"
    else if score <= 6 then "Moderate Complexity"
    else if score <= 8 then "Complex"
    else "Very Complex"
  }

  /** `getComplexityDescription`: the sentence of the score's band, on the label's thresholds. */
  function ComplexityDescription(score: int): (d: string)
    ensures d == Descriptions[LabelBand(score)]
  {
    if score <= 2 then Descriptions[0]
    else if score <= 4 then Descriptions[1]
    else if score <= 6 then Descriptions[2]
    else if score <= 8 then Descriptions[3]
    else Descriptions[4]
  }

  /** A higher score is never put in a lower band, by any of the three readings. */
  lemma BandsMonotone(s: int, t: int)
    requires s <= t
    ensures LabelBand(s) <= LabelBand(t)
    ensures ColourBand(s) <= ColourBand(t)
  {
  }

  /** Two scores with one label have one sentence: the label and the sentence never disagree. */
  lemma LabelFixesDescription(s: int, t: int)
    requires ComplexityLabel(s) == ComplexityLabel(t)
    ensures ComplexityDescription(s) == ComplexityDescription(t)
  {
  }

  /** Each band is reached by some score from 1 to 10. */
  lemma EveryBandReached(b: nat)
    requires b <= 4
    ensures 1 <= 2 * b + 2 <= 10 && LabelBand(2 * b + 2) == b
  {
  }

  // ================================================================ showComplexityAnalysis

  datatype Analysis = Analysis(status: string, message: string, score: int)

  datatype AnalysisView =
    | ErrorView(message: string)
    | ResultView(score: int, colourClass: string, caption: string)

  /** The error view for a missing analysis or one with status `error`; otherwise the score's readings. */
  function ShowComplexityAnalysis(analysis: Option<Analysis>): (v: AnalysisView)
    ensures v.ErrorView? <==> analysis.None? || analysis.value.status == "error"
    ensures v.ErrorView? && analysis.Some? && analysis.value.message != [] ==> v.message == analysis.value.message
    ensures v.ErrorView? && (analysis.None? || analysis.value.message == []) ==> v.message == "Unknown error"
    ensures v.ResultView? ==> v.score == analysis.value.score
    ensures v.ResultView? ==> v.colourClass == ColourClasses[ColourBand(v.score)]
    ensures v.ResultView? ==> v.caption == Labels[LabelBand(v.score)]
  {
    if analysis.None? || analysis.value.status == "error" then
      ErrorView(if analysis.Some? && analysis.value.message != [] then analysis.value.message else "Unknown error")
    else
      var score := analysis.value.score;
      ResultView(score, ScoreColorClass(score), ComplexityLabel(score))
  }
}
