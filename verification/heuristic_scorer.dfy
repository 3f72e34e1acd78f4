/** The offline heuristic scorer (src/lib/footAnalysisAI.ts): five feature
    scores computed from pixel statistics, each clamped into [1, 10] and
    mapped to a feedback tier, combined by a fixed weighting into the
    overall score, with issue detection, tip de-duplication and a capped
    confidence. The pixel statistics and the random jitter are inputs. */
module HeuristicScorer {
  import Seqs
  import opened Numeric

  /** The five features the scorer looks at. */
  datatype Feature = Skin | Nails | Shape | Symmetry | Cleanliness

  /** The image statistics the scorer reads: mean and variance of the
      normalised pixels and the gradient magnitude. */
  datatype Stats = Stats(mean: real, variance: real, gradient: real)

  /** One category of the result. */
  datatype Category = Category(score: real, feedback: string, tips: seq<string>)

  /** `FootAnalysisResult`. */
  datatype FootAnalysis = FootAnalysis(
    overallScore: real,
    skinCondition: Category,
    nailHealth: Category,
    footShape: Category,
    symmetry: Category,
    cleanliness: Category,
    detectedIssues: seq<string>,
    improvementTips: seq<string>,
    confidenceScore: int)

  // ---- feature scores ----

  /** The feature-specific base score. */
  function Base(f: Feature, s: Stats): real {
    match f
    case Skin => 4.0 + (1.0 - s.variance) * 4.0 + (if s.mean > 0.3 then 2.0 else 0.0)
    case Nails => 5.0 + (if s.gradient < 0.1 then 3.0 else -1.0) + (if s.mean > 0.4 then 2.0 else 0.0)
    case Shape => 6.0 + (if s.variance < 0.2 then 2.0 else -1.0) + (if s.gradient > 0.05 then 2.0 else 0.0)
    case Symmetry => 5.0 + (if s.variance < 0.15 then 3.0 else 0.0) + (if Abs(s.mean - 0.5) < 0.1 then 2.0 else 0.0)
    case Cleanliness => 4.0 + (if s.mean > 0.3 then 3.0 else 0.0) + (if s.variance < 0.25 then 3.0 else 0.0)
  }

  /** `analyzeImageFeatures`: base plus jitter, clamped. `jitter` stands for
      `(Math.random() - 0.5) * 0.4`. */
  function FeatureScore(f: Feature, s: Stats, jitter: real): (r: real)
    ensures 1.0 <= r <= 10.0
    ensures 1.0 <= Base(f, s) + jitter <= 10.0 ==> r == Base(f, s) + jitter
  {
    Clamp(Base(f, s) + jitter, 1.0, 10.0)
  }

  /** For the four step-wise features the base is one of a few values in
      [3, 10], so a jitter under 0.2 either way never reaches the clamp. */
  lemma StepFeaturesUnclamped(f: Feature, s: Stats, jitter: real)
    requires f != Skin
    requires -0.2 <= jitter < 0.2
    ensures FeatureScore(f, s, jitter) == Base(f, s) + jitter || Base(f, s) == 10.0
  {
  }

  // ---- tiers ----

  /** Skin and nails have four tiers (8, 6, 4); the other features three
      (8, 6). */
  function Thresholds(f: Feature): (t: seq<real>)
    ensures Descending(t)
  {
    if f == Skin || f == Nails then [8.0, 6.0, 4.0] else [8.0, 6.0]
  }

  /** The feedback and tips of tier `j` (0 is the best), one tier more than
      there are thresholds. */
  function Tier(f: Feature, j: nat): (string, seq<string>)
    requires j <= |Thresholds(f)|
  {
    match f
    case Skin =>
      if j == 0 then ("Excellent skin condition! Your feet show healthy, well-moisturized skin.",
         ["Continue your current foot care routine", "Use sunscreen on feet when exposed"])
      else if j == 1 then ("Good skin condition with minor areas for improvement.",
         ["Apply foot moisturizer daily", "Exfoliate gently once a week", "Stay hydrated"])
      else if j == 2 then ("Moderate skin condition. Some dryness or minor issues detected.",
         ["Use a rich foot cream twice daily", "Consider a foot mask treatment", "Wear breathable shoes"])
      else ("Skin condition needs attention. Dry or problematic areas detected.",
         ["Consult a podiatrist", "Use intensive foot repair cream", "Avoid harsh soaps"])
    case Nails =>
      if j == 0 then ("Excellent nail health! Clean, well-trimmed, and healthy-looking nails.",
         ["Maintain regular nail care routine", "Keep nails at appropriate length"])
      else if j == 1 then ("Good nail health with room for minor improvements.",
         ["Trim nails regularly", "Use a nail file for smooth edges", "Apply cuticle oil"])
      else if j == 2 then ("Moderate nail condition. Some maintenance needed.",
         ["Schedule regular pedicures", "Use antifungal powder", "Keep feet dry"])
      else ("Nail health needs attention. Consider professional care.",
         ["See a podiatrist", "Treat any fungal infections", "Improve foot hygiene"])
    case Shape =>
      if j == 0 then ("Excellent foot structure with good proportions and arch.",
         ["Maintain current activity level", "Choose supportive footwear"])
      else if j == 1 then ("Good foot shape with minor structural considerations.",
         ["Consider arch support insoles", "Maintain healthy weight", "Do foot exercises"])
      else ("Some structural considerations detected.",
         ["Consult a podiatrist for assessment", "Use orthotic insoles", "Strengthen foot muscles"])
    case Symmetry =>
      if j == 0 then ("Excellent foot symmetry and balance.",
         ["Continue balanced activities", "Maintain good posture"])
      else if j == 1 then ("Good symmetry with minor imbalances.",
         ["Focus on balanced exercises", "Stretch regularly", "Check shoe wear patterns"])
      else ("Some asymmetry detected. Consider professional evaluation.",
         ["See a physical therapist", "Work on balance exercises", "Address any gait issues"])
    case Cleanliness =>
      if j == 0 then ("Excellent foot hygiene and cleanliness.",
         ["Maintain current hygiene routine", "Continue using quality foot products"])
      else if j == 1 then ("Good cleanliness with minor areas for improvement.",
         ["Wash feet daily with antibacterial soap", "Dry thoroughly between toes"])
      else ("Foot hygiene needs improvement.",
         ["Establish a daily foot care routine", "Use antifungal foot powder", "Change socks daily"])
  }

  /** `analyzeSkinCondition` and its siblings: the tier is chosen on the
      clamped score, the shown score is that score rounded to a tenth. */
  function Analyze(f: Feature, s: Stats, jitter: real): (c: Category)
    ensures 1.0 <= c.score <= 10.0
    ensures var raw := FeatureScore(f, s, jitter);
      var j := TierIndex(raw, Thresholds(f));
      && c.score == RoundTenth(raw)
      && (c.feedback, c.tips) == Tier(f, j)
      && (j == 0 <==> raw >= 8.0)
  {
    var raw := FeatureScore(f, s, jitter);
    RoundTenthInRange(raw);
    var band := Tier(f, TierIndex(raw, Thresholds(f)));
    Category(RoundTenth(raw), band.0, band.1)
  }

  /** The tier follows the unrounded score, so a shown 8.0 can carry the
      second tier's feedback: dark, uniform skin pixels with a jitter of
      -0.04 give a raw 7.96, shown as 8.0 but below the first threshold. */
  lemma ShownEightWithSecondTier()
    ensures var raw := FeatureScore(Skin, Stats(0.0, 0.0, 0.0), -0.04);
      && raw == 7.96
      && RoundTenth(raw) == 8.0
      && TierIndex(raw, Thresholds(Skin)) == 1
  {
    assert Round(79.6) == 80;
  }

  // ---- combining ----

  /** The weights 0.25, 0.20, 0.25, 0.15, 0.15 of skin, nails, shape,
      symmetry and cleanliness. */
  function Weighted(skin: real, nails: real, shape: real, symmetry: real, cleanliness: real): (r: real)
    ensures skin == nails == shape == symmetry == cleanliness ==> r == skin
  {
    skin * 0.25 + nails * 0.20 + shape * 0.25 + symmetry * 0.15 + cleanliness * 0.15
  }

  /** The weights sum to one and are positive, so the overall score lies
      between the smallest and the largest category score. */
  lemma WeightedBetween(skin: real, nails: real, shape: real, symmetry: real, cleanliness: real, lo: real, hi: real)
    requires lo <= skin <= hi && lo <= nails <= hi && lo <= shape <= hi
    requires lo <= symmetry <= hi && lo <= cleanliness <= hi
    ensures lo <= Weighted(skin, nails, shape, symmetry, cleanliness) <= hi
  {
  }

  /** Raising one category score never lowers the overall score. */
  lemma WeightedMonotone(skin: real, nails: real, shape: real, symmetry: real, cleanliness: real, d: real)
    requires d >= 0.0
    ensures Weighted(skin, nails, shape, symmetry, cleanliness)
         <= Weighted(skin + d, nails, shape, symmetry, cleanliness)
    ensures Weighted(skin, nails, shape, symmetry, cleanliness)
         <= Weighted(skin, nails, shape, symmetry, cleanliness + d)
  {
  }

  /** The fixed issue texts, one per category in category order. */
  const IssueTexts: seq<string> := [
    "Dry or problematic skin detected",
    "Nail health concerns identified",
    "Structural considerations present",
    "Asymmetry detected",
    "Hygiene improvement needed"]

  /** The categories from `k` on that score below 5, in increasing order. */
  function LowIndices(scores: seq<real>, k: nat): (ix: seq<nat>)
    requires k <= |scores|
    ensures forall a :: 0 <= a < |ix| ==> k <= ix[a] < |scores| && scores[ix[a]] < 5.0
    ensures forall a, b :: 0 <= a < b < |ix| ==> ix[a] < ix[b]
    ensures forall i :: k <= i < |scores| && scores[i] < 5.0 ==> i in ix
    decreases |scores| - k
  {
    if k == |scores| then []
    else (if scores[k] < 5.0 then [k] else []) + LowIndices(scores, k + 1)
  }

  /** The elements of `t` at the positions `ix`. */
  function Pick<T>(t: seq<T>, ix: seq<nat>): (r: seq<T>)
    requires forall a :: 0 <= a < |ix| ==> ix[a] < |t|
    ensures |r| == |ix| && forall a :: 0 <= a < |ix| ==> r[a] == t[ix[a]]
  {
    seq(|ix|, a requires 0 <= a < |ix| => t[ix[a]])
  }

  /** Picking distinct elements at increasing positions picks each once,
      and picks the element of a position exactly when the position is
      listed. */
  lemma PickDistinct<T>(t: seq<T>, ix: seq<nat>)
    requires Seqs.NoDup(t)
    requires forall a :: 0 <= a < |ix| ==> ix[a] < |t|
    requires forall a, b :: 0 <= a < b < |ix| ==> ix[a] < ix[b]
    ensures Seqs.NoDup(Pick(t, ix))
    ensures forall i :: 0 <= i < |t| ==> (t[i] in Pick(t, ix) <==> i in ix)
  {
    var r := Pick(t, ix);
    forall i | 0 <= i < |t| && t[i] in r
      ensures i in ix
    {
      var a :| 0 <= a < |r| && r[a] == t[i];
      assert t[ix[a]] == t[i];
    }
    forall i | 0 <= i < |t| && i in ix
      ensures t[i] in r
    {
      var a :| 0 <= a < |ix| && ix[a] == i;
      assert r[a] == t[i];
    }
  }

  /** `detectIssues`: the issue texts of the categories scoring below 5, in
      category order: a category's text is present iff its score is below
      5, and each text appears once. */
  function DetectIssues(scores: seq<real>): (r: seq<string>)
    requires |scores| == 5
    ensures |r| <= 5
    ensures var ix := LowIndices(scores, 0);
      |r| == |ix| && forall a :: 0 <= a < |r| ==> r[a] == IssueTexts[ix[a]]
    ensures forall k :: 0 <= k < 5 ==> (IssueTexts[k] in r <==> scores[k] < 5.0)
    ensures forall x :: x in r ==> x in IssueTexts
    ensures Seqs.NoDup(r)
  {
    var ix := LowIndices(scores, 0);
    IssueTextsDistinct();
    PickDistinct(IssueTexts, ix);
    LowIndicesBound(ix);
    Pick(IssueTexts, ix)
  }

  /** Increasing indices below 5 number at most 5. */
  lemma LowIndicesBound(ix: seq<nat>)
    requires forall a :: 0 <= a < |ix| ==> ix[a] < 5
    requires forall a, b :: 0 <= a < b < |ix| ==> ix[a] < ix[b]
    ensures |ix| <= 5
  {
    if |ix| > 0 {
      IncreasingFrom(ix, |ix| - 1);
    }
  }

  /** Increasing naturals: the one at position `a` is at least `a`. */
  lemma {:induction false} IncreasingFrom(ix: seq<nat>, a: nat)
    requires a < |ix|
    requires forall p, q :: 0 <= p < q < |ix| ==> ix[p] < ix[q]
    ensures ix[a] >= a
  {
    if a > 0 {
      IncreasingFrom(ix, a - 1);
    }
  }

  /** The issue texts are pairwise different. */
  lemma IssueTextsDistinct()
    ensures Seqs.NoDup(IssueTexts)
  {
    var t := IssueTexts;
    assert |t[0]| == 32 && |t[1]| == 31 && |t[2]| == 33 && |t[3]| == 18 && |t[4]| == 26;
  }

  /** `generateImprovementTips`: all category tips in category order,
      de-duplicated, at most five. */
  function ImprovementTips(cats: seq<Category>): (r: seq<string>)
    ensures |r| <= 5
    ensures Seqs.NoDup(r)
    ensures forall x :: x in r ==> exists c :: 0 <= c < |cats| && x in cats[c].tips
  {
    var all := AllTips(cats);
    var d := Seqs.Dedup(all);
    var r := Seqs.Take(d, 5);
    assert forall x :: x in r ==> x in d;
    forall x | x in r
      ensures exists c :: 0 <= c < |cats| && x in cats[c].tips
    {
      AllTipsMember(cats, x);
    }
    NoDupPrefix(d, r);
    r
  }

  lemma NoDupPrefix<T>(d: seq<T>, r: seq<T>)
    requires Seqs.NoDup(d) && |r| <= |d|
    requires forall i :: 0 <= i < |r| ==> r[i] == d[i]
    ensures Seqs.NoDup(r)
  {
  }

  /** The tips of the categories, concatenated in order. */
  function AllTips(cats: seq<Category>): seq<string>
    decreases |cats|
  {
    if |cats| == 0 then [] else cats[0].tips + AllTips(cats[1..])
  }

  lemma {:induction false} AllTipsMember(cats: seq<Category>, x: string)
    ensures x in AllTips(cats) <==> exists c :: 0 <= c < |cats| && x in cats[c].tips
    decreases |cats|
  {
    if |cats| > 0 {
      AllTipsMember(cats[1..], x);
      if exists c :: 1 <= c < |cats| && x in cats[c].tips {
        var c :| 1 <= c < |cats| && x in cats[c].tips;
        assert cats[1..][c - 1] == cats[c];
      }
    }
  }

  /** The tips shown are the first five distinct tips in category order. */
  lemma ImprovementTipsAreFirstDistinct(cats: seq<Category>)
    ensures var f := Seqs.FirstOccurrences(AllTips(cats));
      ImprovementTips(cats) == (if |f| <= 5 then f else f[..5])
  {
    Seqs.DedupIsFirstOccurrences(AllTips(cats));
  }

  /** `calculateConfidence`: 60 plus 30 per unit of mean brightness plus 20
      per unit of missing variance, capped at 95 and rounded. */
  function Confidence(s: Stats): (c: int)
    ensures c <= 95
    ensures 0.0 <= s.mean && s.variance <= 1.0 ==> c >= 60
  {
    Round(Min(95.0, 60.0 + s.mean * 30.0 + (1.0 - s.variance) * 20.0))
  }

  /** `analyzeFootImage` after the pixel statistics: five features with
      their jitters, combined. */
  function AnalyzeFootImage(s: Stats, jitters: seq<real>): (r: FootAnalysis)
    requires |jitters| == 5
    ensures r.skinCondition == Analyze(Skin, s, jitters[0]) && r.nailHealth == Analyze(Nails, s, jitters[1])
    ensures r.footShape == Analyze(Shape, s, jitters[2]) && r.symmetry == Analyze(Symmetry, s, jitters[3])
    ensures r.cleanliness == Analyze(Cleanliness, s, jitters[4])
    ensures var scores := [r.skinCondition.score, r.nailHealth.score, r.footShape.score,
                           r.symmetry.score, r.cleanliness.score];
      && r.overallScore == RoundTenth(Weighted(scores[0], scores[1], scores[2], scores[3], scores[4]))
      && r.detectedIssues == DetectIssues(scores)
    ensures r.improvementTips
         == ImprovementTips([r.skinCondition, r.nailHealth, r.footShape, r.symmetry, r.cleanliness])
    ensures r.confidenceScore == Confidence(s)
    ensures 1.0 <= r.overallScore <= 10.0
    ensures |r.detectedIssues| <= 5 && |r.improvementTips| <= 5
    ensures r.confidenceScore <= 95
  {
    var skin := Analyze(Skin, s, jitters[0]);
    var nails := Analyze(Nails, s, jitters[1]);
    var shape := Analyze(Shape, s, jitters[2]);
    var symmetry := Analyze(Symmetry, s, jitters[3]);
    var clean := Analyze(Cleanliness, s, jitters[4]);
    var overall := Weighted(skin.score, nails.score, shape.score, symmetry.score, clean.score);
    WeightedBetween(skin.score, nails.score, shape.score, symmetry.score, clean.score, 1.0, 10.0);
    RoundTenthInRange(overall);
    FootAnalysis(
      RoundTenth(overall), skin, nails, shape, symmetry, clean,
      DetectIssues([skin.score, nails.score, shape.score, symmetry.score, clean.score]),
      ImprovementTips([skin, nails, shape, symmetry, clean]),
      Confidence(s))
  }
}
