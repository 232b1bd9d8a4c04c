/**
 * The score bands of the results page: a score of 80 or more is shown in green and
 * labelled Excellent, 60 to 79 in yellow and labelled Good, anything lower in red,
 * labelled Needs Work from 40 and Poor below.
 */
module ScoreBands {
  import Analyze

  const GreenText: string := "text-green-600"
  const YellowText: string := "text-yellow-600"
  const RedText: string := "text-red-600"

  const GreenPanel: string := "bg-green-50 border-green-200"
  const YellowPanel: string := "bg-yellow-50 border-yellow-200"
  const RedPanel: string := "bg-red-50 border-red-200"

  const Excellent: string := "Excellent"
  const Good: string := "Good"
  const NeedsWork: string := "Needs Work"
  const Poor: string := "Poor"

  /** The text colour class of a score. */
  function ScoreColor(score: int): (r: string)
    ensures r == GreenText <==> score >= 80
    ensures r == YellowText <==> 60 <= score < 80
    ensures r == RedText <==> score < 60
  {
    if score >= 80 then GreenText
    else if score >= 60 then YellowText
    else RedText
  }

  /** The background and border classes of the panel holding a score. */
  function ScoreBgColor(score: int): (r: string)
    ensures r == GreenPanel <==> score >= 80
    ensures r == YellowPanel <==> 60 <= score < 80
    ensures r == RedPanel <==> score < 60
  {
    if score >= 80 then GreenPanel
    else if score >= 60 then YellowPanel
    else RedPanel
  }

  /** The word shown under a score. */
  function ScoreLabel(score: int): (r: string)
    ensures r == Excellent <==> score >= 80
    ensures r == Good <==> 60 <= score < 80
    ensures r == NeedsWork <==> 40 <= score < 60
    ensures r == Poor <==> score < 40
  {
    if score >= 80 then Excellent
    else if score >= 60 then Good
    else if score >= 40 then NeedsWork
    else Poor
  }

  /** The labels from worst to best. */
  function LabelRank(word: string): nat {
    if word == Excellent then 3
    else if word == Good then 2
    else if word == NeedsWork then 1
    else 0
  }

  /** A higher score never gets a worse label. */
  lemma LabelMonotone(a: int, b: int)
    requires a <= b
    ensures LabelRank(ScoreLabel(a)) <= LabelRank(ScoreLabel(b))
  {
  }

  /** The text colour and the panel colour always change at the same thresholds. */
  lemma PanelFollowsColor(a: int, b: int)
    ensures ScoreColor(a) == ScoreColor(b) <==> ScoreBgColor(a) == ScoreBgColor(b)
  {
  }

  /**
   * The label refines the colour: Excellent is green, Good is yellow, and the two
   * lower labels share red.
   */
  lemma LabelRefinesColor(score: int)
    ensures ScoreColor(score) == GreenText <==> ScoreLabel(score) == Excellent
    ensures ScoreColor(score) == YellowText <==> ScoreLabel(score) == Good
    ensures ScoreColor(score) == RedText <==> ScoreLabel(score) == NeedsWork || ScoreLabel(score) == Poor
  {
  }

  /**
   * The on-page score the analysis route computes is never below 40, so its label is
   * never Poor; a page meeting every rule is Excellent.
   */
  lemma SeoScoreNeverPoor(s: Analyze.Signals)
    ensures ScoreLabel(Analyze.Max(0, 100 - Analyze.Deduction(Analyze.Findings(s)))) != Poor
    ensures Analyze.Findings(s) == [] ==> ScoreLabel(Analyze.Max(0, 100 - Analyze.Deduction(Analyze.Findings(s)))) == Excellent
  {
    Analyze.ScoreBounds(s);
    Analyze.PerfectPage(s);
  }
}
