/** The analysis result screen (src/components/DetailedAnalysisDisplay.tsx):
    the overall rating band, the ten-star row, the per-category breakdown
    with its colour bands and progress bars, the issues and tips cards, and
    the summary or validation-failure panel. Markup and styling are not
    modelled; the screen is reduced to what it decides to show. */
module DetailedAnalysisDisplay {
  import opened Wrappers
  import Numeric
  import Stars
  import AnalysisResult
  import MemeVerdicts

  /** `getRatingCategory`'s six bands, best first. */
  datatype Rating = Exceptional | Excellent | VeryGood | Good | Fair | NeedsImprovement

  function Label(c: Rating): string {
    match c
    case Exceptional => "Exceptional"
    case Excellent => "Excellent"
    case VeryGood => "Very Good"
    case Good => "Good"
    case Fair => "Fair"
    case NeedsImprovement => "Needs Improvement"
  }

  /** Position of a band, 0 for the best. */
  function Rank(c: Rating): nat {
    match c
    case Exceptional => 0
    case Excellent => 1
    case VeryGood => 2
    case Good => 3
    case Fair => 4
    case NeedsImprovement => 5
  }

  /** `getRatingCategory`: every score lands in exactly one band, cut at
      9, 8, 7, 6 and 4. */
  function RatingCategory(score: real): (c: Rating)
    ensures c == Exceptional <==> score >= 9.0
    ensures c == Excellent <==> 8.0 <= score < 9.0
    ensures c == VeryGood <==> 7.0 <= score < 8.0
    ensures c == Good <==> 6.0 <= score < 7.0
    ensures c == Fair <==> 4.0 <= score < 6.0
    ensures c == NeedsImprovement <==> score < 4.0
  {
    if score >= 9.0 then Exceptional
    else if score >= 8.0 then Excellent
    else if score >= 7.0 then VeryGood
    else if score >= 6.0 then Good
    else if score >= 4.0 then Fair
    else NeedsImprovement
  }

  /** A higher score never gets a worse band. */
  lemma RatingMonotone(a: real, b: real)
    requires a <= b
    ensures Rank(RatingCategory(b)) <= Rank(RatingCategory(a))
  {
  }

  /** `getScoreColor`'s four bands. */
  datatype Colour = Green | Yellow | Orange | Red

  /** `getScoreColor`, cut at 8, 6 and 4. */
  function ScoreColor(score: real): (c: Colour)
    ensures c == Green <==> score >= 8.0
    ensures c == Yellow <==> 6.0 <= score < 8.0
    ensures c == Orange <==> 4.0 <= score < 6.0
    ensures c == Red <==> score < 4.0
  {
    if score >= 8.0 then Green
    else if score >= 6.0 then Yellow
    else if score >= 4.0 then Orange
    else Red
  }

  /** The colour bands are unions of rating bands: green for the top two,
      yellow for the next two, orange for Fair, red for Needs Improvement. */
  lemma ColourFollowsRating(score: real)
    ensures ScoreColor(score) == Green <==> RatingCategory(score) in {Exceptional, Excellent}
    ensures ScoreColor(score) == Yellow <==> RatingCategory(score) in {VeryGood, Good}
    ensures ScoreColor(score) == Orange <==> RatingCategory(score) == Fair
    ensures ScoreColor(score) == Red <==> RatingCategory(score) == NeedsImprovement
  {
  }

  // ---- the breakdown ----

  /** The five breakdown rows, in display order. */
  datatype Part = SkinCondition | NailHealth | FootStructure | Symmetry | Cleanliness

  const Parts: seq<Part> := [SkinCondition, NailHealth, FootStructure, Symmetry, Cleanliness]

  /** One row: its title, score, colour, progress-bar value and feedback. */
  datatype BreakdownRow = BreakdownRow(part: Part, score: real, colour: Colour, progress: real, feedback: string)

  function RowOf(p: Part, score: real, feedback: string): BreakdownRow {
    BreakdownRow(p, score, ScoreColor(score), score * 10.0, feedback)
  }

  /** The analysis's categories in display order (the "Foot Structure" row
      reads `footShape`). */
  function Sections(a: AnalysisResult.Analysis): seq<AnalysisResult.Category> {
    [a.skinCondition, a.nailHealth, a.footShape, a.symmetry, a.cleanliness]
  }

  /** The breakdown as the screen draws it: the Symmetry row shows the
      symmetry score and bar but the foot-shape feedback. */
  function BreakdownAsWritten(a: AnalysisResult.Analysis): (r: seq<BreakdownRow>)
    ensures |r| == 5
    ensures forall k :: 0 <= k < 5 && k != 3 ==>
      r[k] == RowOf(Parts[k], Sections(a)[k].score, Sections(a)[k].feedback)
    ensures r[3] == RowOf(Symmetry, a.symmetry.score, a.footShape.feedback)
  {
    [RowOf(SkinCondition, a.skinCondition.score, a.skinCondition.feedback),
     RowOf(NailHealth, a.nailHealth.score, a.nailHealth.feedback),
     RowOf(FootStructure, a.footShape.score, a.footShape.feedback),
     RowOf(Symmetry, a.symmetry.score, a.footShape.feedback),
     RowOf(Cleanliness, a.cleanliness.score, a.cleanliness.feedback)]
  }

  /** Whenever the two feedback texts differ, the Symmetry row as drawn
      shows text that is not the symmetry feedback. */
  lemma SymmetryRowShowsShapeFeedback(a: AnalysisResult.Analysis)
    requires a.symmetry.feedback != a.footShape.feedback
    ensures BreakdownAsWritten(a)[3].part == Symmetry
    ensures BreakdownAsWritten(a)[3].feedback != a.symmetry.feedback
  {
  }

  /** The breakdown with every row showing its own category: title, score,
      colour band, a progress bar of ten times the score, and feedback. */
  function Breakdown(a: AnalysisResult.Analysis): (r: seq<BreakdownRow>)
    ensures |r| == |Parts|
    ensures forall k :: 0 <= k < |r| ==>
      && r[k].part == Parts[k]
      && r[k].score == Sections(a)[k].score
      && r[k].feedback == Sections(a)[k].feedback
      && r[k].colour == ScoreColor(r[k].score)
      && r[k].progress == 10.0 * r[k].score
  {
    [RowOf(SkinCondition, a.skinCondition.score, a.skinCondition.feedback),
     RowOf(NailHealth, a.nailHealth.score, a.nailHealth.feedback),
     RowOf(FootStructure, a.footShape.score, a.footShape.feedback),
     RowOf(Symmetry, a.symmetry.score, a.symmetry.feedback),
     RowOf(Cleanliness, a.cleanliness.score, a.cleanliness.feedback)]
  }

  /** The drawn breakdown differs from the intended one in the Symmetry
      row's feedback only. */
  lemma AsWrittenDiffersOnlyInSymmetryFeedback(a: AnalysisResult.Analysis)
    ensures forall k :: 0 <= k < 5 && k != 3 ==> BreakdownAsWritten(a)[k] == Breakdown(a)[k]
    ensures BreakdownAsWritten(a)[3] == Breakdown(a)[3].(feedback := a.footShape.feedback)
  {
  }

  /** A score in [0, 10] gives a progress value in [0, 100]. */
  lemma ProgressInRange(a: AnalysisResult.Analysis, k: nat)
    requires k < |Parts| && 0.0 <= Sections(a)[k].score <= 10.0
    ensures 0.0 <= Breakdown(a)[k].progress <= 100.0
  {
  }

  // ---- the whole screen ----

  /** The panel under "Real AI Analysis Summary". */
  datatype Panel =
    | ValidationFailed(message: Option<string>) // "Image Validation Failed" with the warning
    | Summary(notice: Option<string>)           // the summary text, with a "Medical Notice" if any

  /** What the screen shows for a result. */
  datatype Display = Display(
    overallScore: real,
    category: Rating,
    meme: MemeVerdicts.MemeVerdict,
    stars: seq<bool>,
    confidence: real,
    rows: seq<BreakdownRow>,
    issuesCard: Option<seq<string>>,
    tipsCard: Option<seq<string>>,
    panel: Panel)

  /** `DetailedAnalysisDisplay`. `rand` is the `Math.random()` draw behind
      the meme verdict. No analysis renders nothing. The breakdown is drawn
      as written, with the foot-shape feedback under the Symmetry score. */
  function Render(analysis: Option<AnalysisResult.Analysis>, rand: real): (r: Option<Display>)
    requires 0.0 <= rand < 1.0
    ensures r.None? <==> analysis.None?
    ensures r.Some? ==>
      var a, d := analysis.value, r.value;
      && d.category == RatingCategory(a.overallScore)
      && d.meme.score == MemeVerdicts.ScoreKey(a.overallScore)
      && |d.stars| == 10
      && (forall i :: 0 <= i < 10 ==> (d.stars[i] <==> i < Numeric.Floor(a.overallScore)))
      && Stars.Filled(d.stars) == Stars.ClampCount(Numeric.Floor(a.overallScore), 10)
      && d.rows == BreakdownAsWritten(a)
      && (d.issuesCard.Some? <==> |a.detectedIssues| > 0)
      && (d.issuesCard.Some? ==> d.issuesCard.value == a.detectedIssues)
      && (d.tipsCard.Some? <==> |a.improvementTips| > 0)
      && (d.tipsCard.Some? ==> d.tipsCard.value == a.improvementTips)
      && (d.panel.ValidationFailed? <==> !a.isFootDetected)
      && (d.panel.ValidationFailed? ==> d.panel.message == a.medicalWarning)
      && (d.panel.Summary? ==>
            d.panel.notice == if a.medicalWarning.Some? && a.medicalWarning.value != "" then a.medicalWarning else None)
  {
    match analysis
    case None => None
    case Some(a) =>
      var stars := Stars.Row(10, Numeric.Floor(a.overallScore) as real);
      Stars.FilledRowWhole(10, Numeric.Floor(a.overallScore));
      var panel :=
        if !a.isFootDetected then ValidationFailed(a.medicalWarning)
        else Summary(if a.medicalWarning.Some? && a.medicalWarning.value != "" then a.medicalWarning else None);
      Some(Display(
        a.overallScore, RatingCategory(a.overallScore), MemeVerdicts.GetMemeVerdict(a.overallScore, rand),
        stars, a.confidenceScore, BreakdownAsWritten(a),
        if |a.detectedIssues| > 0 then Some(a.detectedIssues) else None,
        if |a.improvementTips| > 0 then Some(a.improvementTips) else None,
        panel))
  }

  /** The rendered breakdown is the intended one except for the Symmetry
      row, whose feedback is the foot-shape feedback. */
  lemma RenderedRowsDifferOnlyInSymmetryFeedback(a: AnalysisResult.Analysis, rand: real)
    requires 0.0 <= rand < 1.0
    ensures var rows := Render(Some(a), rand).value.rows;
      && |rows| == |Breakdown(a)|
      && (forall k :: 0 <= k < |rows| && k != 3 ==> rows[k] == Breakdown(a)[k])
      && rows[3] == Breakdown(a)[3].(feedback := a.footShape.feedback)
  {
    AsWrittenDiffersOnlyInSymmetryFeedback(a);
  }

  /** For a score in the model's [1, 10] range the star row shows exactly
      the whole part of the score, at least one star. */
  lemma StarsShowWholePart(a: AnalysisResult.Analysis, rand: real)
    requires 0.0 <= rand < 1.0 && 1.0 <= a.overallScore <= 10.0
    ensures var d := Render(Some(a), rand).value;
      && Stars.Filled(d.stars) == Numeric.Floor(a.overallScore)
      && 1 <= Stars.Filled(d.stars) <= 10
  {
  }

  /** The not-a-foot record shows the validation-failure panel with its
      warning, no stars, the lowest band, and both cards (it carries one
      issue and one tip). */
  lemma NotFootScreen(rand: real)
    requires 0.0 <= rand < 1.0
    ensures var d := Render(Some(AnalysisResult.NotFootAnalysis), rand).value;
      && d.panel == ValidationFailed(AnalysisResult.NotFootAnalysis.medicalWarning)
      && Stars.Filled(d.stars) == 0
      && d.category == NeedsImprovement
      && d.issuesCard.Some? && d.tipsCard.Some?
  {
  }
}
