/** Turning the vision model's answer into the fixed analysis record
    (src/lib/realFootAnalysisAI.ts): the not-a-foot short cut, default
    filling of an already-parsed answer, the keyword-to-tip mapping, the
    plain-text fallback and the five-score mean. */
module AnalysisResult {
  import opened Wrappers
  import Seqs
  import Strings

  /** One category of the parsed answer; every member may be missing. */
  datatype Section = Section(score: Option<real>, feedback: Option<string>, issues: Option<seq<string>>)

  /** The parsed answer (`JSON.parse` output or the text fallback's object). */
  datatype Parsed = Parsed(
    isFootDetected: Option<bool>,
    overallScore: Option<real>,
    skinCondition: Option<Section>,
    nailHealth: Option<Section>,
    footShape: Option<Section>,
    footStructure: Option<Section>,
    symmetry: Option<Section>,
    cleanliness: Option<Section>,
    detectedIssues: Option<seq<string>>,
    improvementTips: Option<seq<string>>,
    confidenceScore: Option<real>,
    medicalRecommendation: Option<string>,
    medicalWarning: Option<string>)

  /** One category of the result. */
  datatype Category = Category(score: real, feedback: string, tips: seq<string>)

  /** `RealFootAnalysisResult` (the provider is always 'openai'). */
  datatype Analysis = Analysis(
    isFootDetected: bool,
    overallScore: real,
    skinCondition: Category,
    nailHealth: Category,
    footShape: Category,
    symmetry: Category,
    cleanliness: Category,
    detectedIssues: seq<string>,
    improvementTips: seq<string>,
    confidenceScore: real,
    medicalWarning: Option<string>)

  // ---- keyword tips ----

  /** `tipMap`, in its key order. */
  const TipMap: seq<(string, string)> := [
    ("dry", "Apply a high-quality foot moisturizer daily, especially to heels"),
    ("crack", "Use a healing balm with urea or salicylic acid for cracked skin"),
    ("callus", "Gently exfoliate calluses and moisturize regularly"),
    ("rough", "Use a pumice stone weekly and moisturize daily"),
    ("discolor", "Consult a podiatrist about skin discoloration"),
    ("nail", "Maintain proper nail trimming and hygiene"),
    ("thick", "Consider professional pedicure treatment"),
    ("flak", "Address flaking skin with intensive moisturizing"),
    ("hard", "Soften hard patches with regular moisturizing")]

  /** The consultation tip shown when issues exist but no key matches. */
  const ConsultTip: string := "Consult with a foot care professional for proper assessment"

  /** Issue text mentions `key`, ignoring case. */
  predicate Mentions(issue: string, key: string) {
    Strings.Contains(Strings.ToLower(issue), key)
  }

  /** The tips of keys `k..` of `m` that the issue mentions, in key order. */
  function MatchedFrom(issue: string, m: seq<(string, string)>, k: nat): seq<string>
    decreases |m| - k
  {
    if k >= |m| then []
    else (if Mentions(issue, m[k].0) then [m[k].1] else []) + MatchedFrom(issue, m, k + 1)
  }

  lemma {:induction false} MatchedFromMember(issue: string, m: seq<(string, string)>, k: nat, x: string)
    ensures x in MatchedFrom(issue, m, k) <==> exists j :: k <= j < |m| && m[j].1 == x && Mentions(issue, m[j].0)
    decreases |m| - k
  {
    if k < |m| {
      MatchedFromMember(issue, m, k + 1, x);
      var here := Mentions(issue, m[k].0);
      var head := if here then [m[k].1] else [];
      assert MatchedFrom(issue, m, k) == head + MatchedFrom(issue, m, k + 1);
      if x in MatchedFrom(issue, m, k) && x !in MatchedFrom(issue, m, k + 1) {
        assert x in head;
      }
    }
  }

  /** Every tip pushed while walking the issues, before de-duplication. */
  function RawTips(issues: seq<string>, m: seq<(string, string)>): seq<string>
    decreases |issues|
  {
    if |issues| == 0 then [] else MatchedFrom(issues[0], m, 0) + RawTips(issues[1..], m)
  }

  /** A mentioned key's tip is pushed. */
  lemma {:induction false} RawTipsPushed(issues: seq<string>, m: seq<(string, string)>, i: nat, j: nat)
    requires i < |issues| && j < |m| && Mentions(issues[i], m[j].0)
    ensures m[j].1 in RawTips(issues, m)
    decreases i
  {
    var rest := issues[1..];
    assert RawTips(issues, m) == MatchedFrom(issues[0], m, 0) + RawTips(rest, m);
    if i == 0 {
      MatchedFromMember(issues[0], m, 0, m[j].1);
    } else {
      assert rest[i - 1] == issues[i];
      RawTipsPushed(rest, m, i - 1, j);
    }
  }

  /** Every pushed tip belongs to a key that some issue mentions. */
  lemma {:induction false} RawTipsMentioned(issues: seq<string>, m: seq<(string, string)>, x: string)
    requires x in RawTips(issues, m)
    ensures exists i, j :: 0 <= i < |issues| && 0 <= j < |m| && m[j].1 == x && Mentions(issues[i], m[j].0)
    decreases |issues|
  {
    var rest := issues[1..];
    assert RawTips(issues, m) == MatchedFrom(issues[0], m, 0) + RawTips(rest, m);
    if x in MatchedFrom(issues[0], m, 0) {
      MatchedFromMember(issues[0], m, 0, x);
      var j :| 0 <= j < |m| && m[j].1 == x && Mentions(issues[0], m[j].0);
      assert 0 < |issues|;
    } else {
      RawTipsMentioned(rest, m, x);
      var i, j :| 0 <= i < |rest| && 0 <= j < |m| && m[j].1 == x && Mentions(rest[i], m[j].0);
      assert rest[i] == issues[i + 1];
    }
  }

  /** A tip is pushed exactly when some issue mentions a key carrying it. */
  lemma RawTipsMember(issues: seq<string>, m: seq<(string, string)>, x: string)
    ensures x in RawTips(issues, m) <==>
      exists i, j :: 0 <= i < |issues| && 0 <= j < |m| && m[j].1 == x && Mentions(issues[i], m[j].0)
  {
    if x in RawTips(issues, m) {
      RawTipsMentioned(issues, m, x);
    }
    if exists i, j :: 0 <= i < |issues| && 0 <= j < |m| && m[j].1 == x && Mentions(issues[i], m[j].0) {
      var i, j :| 0 <= i < |issues| && 0 <= j < |m| && m[j].1 == x && Mentions(issues[i], m[j].0);
      RawTipsPushed(issues, m, i, j);
    }
  }

  /** `extractTipsFromIssues`: nothing for missing or empty issues; else the
      de-duplicated matched tips, or the single consultation tip when no
      key matched. */
  function ExtractTips(issues: Option<seq<string>>): (r: seq<string>)
    ensures r == [] <==> issues.None? || |issues.value| == 0
    ensures Seqs.NoDup(r)
    ensures issues.Some? && |issues.value| > 0 ==>
      forall x :: x in r <==> (x in RawTips(issues.value, TipMap) || (RawTips(issues.value, TipMap) == [] && x == ConsultTip))
    ensures issues.Some? && |RawTips(issues.value, TipMap)| > 0 ==>
      r == Seqs.FirstOccurrences(RawTips(issues.value, TipMap))
  {
    if issues.None? || |issues.value| == 0 then []
    else
      var raw := RawTips(issues.value, TipMap);
      if |raw| > 0 then
        Seqs.DedupIsFirstOccurrences(raw);
        Seqs.Dedup(raw)
      else [ConsultTip]
  }

  /** The nine tips are different texts, none of them the consultation tip. */
  lemma TipTextsDistinct()
    ensures forall a, b :: 0 <= a < b < |TipMap| ==> TipMap[a].1 != TipMap[b].1
    ensures forall a :: 0 <= a < |TipMap| ==> TipMap[a].1 != ConsultTip
  {
    var t := TipMap;
    var c := ConsultTip;
    assert |c| == 59;
    assert |t[0].1| == 64 && |t[1].1| == 63 && |t[2].1| == 50 && |t[3].1| == 46 && |t[4].1| == 45;
    assert |t[5].1| == 41 && |t[6].1| == 40 && |t[7].1| == 48 && |t[8].1| == 45;
    var t4 := t[4].1;
    var t8 := t[8].1;
    assert t4[44] != t8[44];
  }

  /** With tip texts that are pairwise different and differ from the
      consultation tip: the tip of key `j` is given exactly when some issue
      mentions the key, and the consultation tip alone exactly when no issue
      mentions any key. */
  lemma TipsOfMap(issues: seq<string>, m: seq<(string, string)>, j: nat)
    requires |issues| > 0 && j < |m|
    requires forall a, b :: 0 <= a < b < |m| ==> m[a].1 != m[b].1
    ensures var raw := RawTips(issues, m);
      && (m[j].1 in raw <==> exists i :: 0 <= i < |issues| && Mentions(issues[i], m[j].0))
      && (raw == [] <==> forall i, k :: 0 <= i < |issues| && 0 <= k < |m| ==> !Mentions(issues[i], m[k].0))
  {
    RawTipsMember(issues, m, m[j].1);
    var raw := RawTips(issues, m);
    if raw != [] {
      RawTipsMember(issues, m, raw[0]);
    } else {
      forall i, k | 0 <= i < |issues| && 0 <= k < |m|
        ensures !Mentions(issues[i], m[k].0)
      {
        RawTipsMember(issues, m, m[k].1);
      }
    }
  }

  /** A raw tip is one of the map's tips. */
  lemma RawTipIsKeyed(issues: seq<string>, m: seq<(string, string)>, x: string)
    requires x in RawTips(issues, m)
    ensures exists j :: 0 <= j < |m| && m[j].1 == x
  {
    RawTipsMember(issues, m, x);
  }

  /** The tip of key `j` is given exactly when some issue mentions the key. */
  lemma TipGivenIffMentioned(issues: seq<string>, j: nat)
    requires |issues| > 0 && j < |TipMap|
    ensures TipMap[j].1 in ExtractTips(Some(issues)) <==> exists i :: 0 <= i < |issues| && Mentions(issues[i], TipMap[j].0)
  {
    TipTextsDistinct();
    TipsOfMap(issues, TipMap, j);
  }

  /** The consultation tip is given exactly when no issue mentions any key,
      and then it is the only tip. */
  lemma ConsultIffNothingMentioned(issues: seq<string>)
    requires |issues| > 0
    ensures ConsultTip in ExtractTips(Some(issues)) <==>
      forall i, k :: 0 <= i < |issues| && 0 <= k < |TipMap| ==> !Mentions(issues[i], TipMap[k].0)
    ensures ConsultTip in ExtractTips(Some(issues)) ==> ExtractTips(Some(issues)) == [ConsultTip]
  {
    TipTextsDistinct();
    TipsOfMap(issues, TipMap, 0);
    var raw := RawTips(issues, TipMap);
    if ConsultTip in raw {
      RawTipIsNot(issues, TipMap, ConsultTip, ConsultTip);
    }
  }

  /** A text that is no tip of the map is never pushed. */
  lemma RawTipIsNot(issues: seq<string>, m: seq<(string, string)>, x: string, c: string)
    requires x in RawTips(issues, m)
    requires forall a :: 0 <= a < |m| ==> m[a].1 != c
    ensures x != c
  {
    RawTipIsKeyed(issues, m, x);
  }

  /** The KELVIN SIGN folds to `k`: an issue written "CRAC" followed by
      U+212A mentions `crack` and gets the cracked-skin tip. */
  lemma KelvinSignMentionsCrack()
    ensures Mentions("CRAC\U{212A}", "crack")
    ensures TipMap[1].1 in ExtractTips(Some(["CRAC\U{212A}"]))
  {
    var lower := Strings.ToLower("CRAC\U{212A}");
    assert lower == "crack";
    assert Strings.StartsWith(lower, "crack");
    TipGivenIffMentioned(["CRAC\U{212A}"], 1);
  }

  // ---- default filling ----

  /** JavaScript truthiness of a number (NaN does not arise here). */
  predicate TruthyNum(x: Option<real>) {
    x.Some? && x.value != 0.0
  }

  predicate TruthyStr(x: Option<string>) {
    x.Some? && x.value != ""
  }

  function ScoreIn(s: Option<Section>): Option<real> {
    if s.Some? then s.value.score else None
  }

  function FeedbackIn(s: Option<Section>): Option<string> {
    if s.Some? then s.value.feedback else None
  }

  function IssuesIn(s: Option<Section>): Option<seq<string>> {
    if s.Some? then s.value.issues else None
  }

  /** `a?.x || b?.x || default` for one category, with `b` the fallback
      section (`footStructure` for the shape row, absent for the others).
      An issues array is truthy even when empty. */
  function Normalise(a: Option<Section>, b: Option<Section>): (c: Category)
    ensures TruthyNum(ScoreIn(a)) ==> c.score == ScoreIn(a).value
    ensures !TruthyNum(ScoreIn(a)) && TruthyNum(ScoreIn(b)) ==> c.score == ScoreIn(b).value
    ensures !TruthyNum(ScoreIn(a)) && !TruthyNum(ScoreIn(b)) ==> c.score == 5.0
    ensures c.feedback != ""
    ensures TruthyStr(FeedbackIn(a)) ==> c.feedback == FeedbackIn(a).value
    ensures !TruthyStr(FeedbackIn(a)) && TruthyStr(FeedbackIn(b)) ==> c.feedback == FeedbackIn(b).value
    ensures !TruthyStr(FeedbackIn(a)) && !TruthyStr(FeedbackIn(b)) ==> c.feedback == "Detailed analysis required"
    ensures c.tips == ExtractTips(if IssuesIn(a).Some? then IssuesIn(a) else IssuesIn(b))
  {
    var score := if TruthyNum(ScoreIn(a)) then ScoreIn(a).value
                 else if TruthyNum(ScoreIn(b)) then ScoreIn(b).value else 5.0;
    var feedback := if TruthyStr(FeedbackIn(a)) then FeedbackIn(a).value
                    else if TruthyStr(FeedbackIn(b)) then FeedbackIn(b).value else "Detailed analysis required";
    Category(score, feedback, ExtractTips(if IssuesIn(a).Some? then IssuesIn(a) else IssuesIn(b)))
  }

  /** The record returned when the answer says the image is not a foot. */
  const NoFoot: Category := Category(0.0, "No foot detected", [])

  const NotFootAnalysis: Analysis := Analysis(
    false, 0.0, NoFoot, NoFoot, NoFoot, NoFoot, NoFoot,
    ["Image does not contain feet"], ["Please upload a clear photo of feet for analysis"], 100.0,
    Some("This image does not appear to contain feet. Please upload a clear photo of feet for accurate analysis."))

  /** The raw answer carries one of the two not-a-foot markers. */
  predicate SaysNotFoot(text: string) {
    Strings.Contains(text, "NOT_A_FOOT") || Strings.Contains(text, "\"isFootDetected\": false")
  }

  /** The result structure built from a parsed answer. */
  function Structure(d: Parsed): (r: Analysis)
    ensures r.isFootDetected <==> d.isFootDetected != Some(false)
    ensures r.overallScore == (if TruthyNum(d.overallScore) then d.overallScore.value else 5.0)
    ensures r.confidenceScore == (if TruthyNum(d.confidenceScore) then d.confidenceScore.value else 75.0)
    ensures r.skinCondition == Normalise(d.skinCondition, None)
    ensures r.nailHealth == Normalise(d.nailHealth, None)
    ensures r.footShape == Normalise(d.footShape, d.footStructure)
    ensures r.symmetry == Normalise(d.symmetry, None)
    ensures r.cleanliness == Normalise(d.cleanliness, None)
    ensures r.detectedIssues == d.detectedIssues.GetOr(["Analysis incomplete - manual assessment needed"])
    ensures r.improvementTips == d.improvementTips.GetOr(["Consider professional foot care consultation"])
    ensures TruthyStr(d.medicalRecommendation) ==> r.medicalWarning == d.medicalRecommendation
    ensures !TruthyStr(d.medicalRecommendation) ==> r.medicalWarning == d.medicalWarning
  {
    Analysis(
      d.isFootDetected != Some(false),
      if TruthyNum(d.overallScore) then d.overallScore.value else 5.0,
      Normalise(d.skinCondition, None),
      Normalise(d.nailHealth, None),
      Normalise(d.footShape, d.footStructure),
      Normalise(d.symmetry, None),
      Normalise(d.cleanliness, None),
      d.detectedIssues.GetOr(["Analysis incomplete - manual assessment needed"]),
      d.improvementTips.GetOr(["Consider professional foot care consultation"]),
      if TruthyNum(d.confidenceScore) then d.confidenceScore.value else 75.0,
      if TruthyStr(d.medicalRecommendation) then d.medicalRecommendation else d.medicalWarning)
  }

  // ---- plain-text fallback ----

  /** The lower-cased category name of the `i`-th match. */
  function NameAt(scraped: seq<(string, real)>, i: nat): string
    requires i < |scraped|
  {
    Strings.ToLower(scraped[i].0)
  }

  /** The lower-cased category names of all matches, in match order. */
  function Names(scraped: seq<(string, real)>): (names: seq<string>)
    ensures |names| == |scraped|
    ensures forall i :: 0 <= i < |scraped| ==> names[i] == NameAt(scraped, i)
  {
    seq(|scraped|, i requires 0 <= i < |scraped| => NameAt(scraped, i))
  }

  /** The category names the score scraper found, lower-cased, each once in
      order of first appearance. A JavaScript object lists integer-like keys
      such as "2" first; only the mean is taken over these, and it does not
      depend on the order. */
  function ScrapedKeys(scraped: seq<(string, real)>): (keys: seq<string>)
    ensures Seqs.NoDup(keys)
    ensures forall i :: 0 <= i < |scraped| ==> NameAt(scraped, i) in keys
    ensures forall x :: x in keys ==> exists i :: 0 <= i < |scraped| && NameAt(scraped, i) == x
    ensures |keys| == 0 <==> |scraped| == 0
  {
    Seqs.Dedup(Names(scraped))
  }

  /** The score stored under `key` (`scores[category] = ...`, so a later
      match overwrites): present exactly when some match is named `key`,
      and then the score of the last such match. */
  function LastScore(scraped: seq<(string, real)>, key: string): (r: Option<real>)
    ensures r.None? <==> forall i :: 0 <= i < |scraped| ==> NameAt(scraped, i) != key
    ensures r.Some? ==> exists i :: 0 <= i < |scraped| && NameAt(scraped, i) == key && scraped[i].1 == r.value
                                  && forall j :: i < j < |scraped| ==> NameAt(scraped, j) != key
  {
    var names := Names(scraped);
    var n := Seqs.LastIndexOf(names, key);
    if n < 0 then None else Some(scraped[n].1)
  }

  /** The stored score of every scraped category, one per name of
      `ScrapedKeys`. */
  function ScrapedScores(scraped: seq<(string, real)>): (v: seq<real>)
    ensures |v| == |ScrapedKeys(scraped)|
    ensures forall i :: 0 <= i < |v| ==> Some(v[i]) == LastScore(scraped, ScrapedKeys(scraped)[i])
  {
    var keys := ScrapedKeys(scraped);
    forall i | 0 <= i < |keys|
      ensures LastScore(scraped, keys[i]).Some?
    {
      assert keys[i] in keys;
    }
    seq(|keys|, i requires 0 <= i < |keys| => LastScore(scraped, keys[i]).GetOr(0.0))
  }

  function ScrapedSection(scraped: seq<(string, real)>, key: string): Option<Section> {
    match LastScore(scraped, key)
    case None => None
    case Some(s) => Some(Section(Some(s), Some("AI analysis provided"), None))
  }

  /** `extractAnalysisFromText`, given the (name, score) pairs the regular
      expression matched in order. The overall score is the mean of the
      stored category scores, or 5 when nothing was matched. Scraped names
      are lower-cased, so of the five categories only `symmetry` and
      `cleanliness` can be filled. */
  function FromText(text: string, scraped: seq<(string, real)>): (d: Parsed)
    ensures d.isFootDetected == Some(!Strings.Contains(Strings.ToLower(text), "not a foot"))
    ensures d.confidenceScore == Some(85.0)
    ensures |scraped| > 0 ==> d.overallScore == Some(Seqs.Mean(ScrapedScores(scraped)))
    ensures |scraped| == 0 ==> d.overallScore == Some(5.0)
    ensures d.skinCondition.None? && d.nailHealth.None? && d.footShape.None? && d.footStructure.None?
    ensures d.symmetry.Some? <==> LastScore(scraped, "symmetry").Some?
    ensures d.symmetry.Some? ==>
      d.symmetry.value == Section(LastScore(scraped, "symmetry"), Some("AI analysis provided"), None)
    ensures d.cleanliness.Some? <==> LastScore(scraped, "cleanliness").Some?
    ensures d.cleanliness.Some? ==>
      d.cleanliness.value == Section(LastScore(scraped, "cleanliness"), Some("AI analysis provided"), None)
    ensures d.detectedIssues.None? && d.improvementTips.None?
    ensures d.medicalRecommendation.None? && d.medicalWarning.None?
  {
    var overall := if |ScrapedKeys(scraped)| > 0 then Seqs.Mean(ScrapedScores(scraped)) else 5.0;
    Parsed(Some(!Strings.Contains(Strings.ToLower(text), "not a foot")), Some(overall),
           None, None, None, None, ScrapedSection(scraped, "symmetry"), ScrapedSection(scraped, "cleanliness"),
           None, None, Some(85.0), None, None)
  }

  /** Matched names pairwise different after lower-casing. */
  predicate DistinctNames(scraped: seq<(string, real)>) {
    forall i, j :: 0 <= i < j < |scraped| ==> NameAt(scraped, i) != NameAt(scraped, j)
  }

  /** With distinct names, the score stored under a match's name is its own. */
  lemma StoredScoreOfDistinct(scraped: seq<(string, real)>, i: nat)
    requires i < |scraped| && DistinctNames(scraped)
    ensures LastScore(scraped, NameAt(scraped, i)) == Some(scraped[i].1)
  {
    var key := NameAt(scraped, i);
    var last := LastScore(scraped, key);
    assert last.Some?;
    var m :| 0 <= m < |scraped| && NameAt(scraped, m) == key && scraped[m].1 == last.value
             && forall j :: m < j < |scraped| ==> NameAt(scraped, j) != key;
    assert m == i;
  }

  /** When the matched names are all different after lower-casing, the
      overall score is the plain mean of the matched scores, in order. */
  lemma DistinctNamesMean(text: string, scraped: seq<(string, real)>)
    requires |scraped| > 0 && DistinctNames(scraped)
    ensures FromText(text, scraped).overallScore
         == Some(Seqs.Mean(seq(|scraped|, i requires 0 <= i < |scraped| => scraped[i].1)))
  {
    var names := Names(scraped);
    Seqs.DedupDistinct(names);
    var keys := ScrapedKeys(scraped);
    assert keys == names;
    var v := ScrapedScores(scraped);
    var plain := seq(|scraped|, i requires 0 <= i < |scraped| => scraped[i].1);
    forall i | 0 <= i < |v|
      ensures v[i] == plain[i]
    {
      assert keys[i] == NameAt(scraped, i);
      StoredScoreOfDistinct(scraped, i);
    }
    assert v == plain;
  }

  /** Matched scores inside [lo, hi] give an overall score inside [lo, hi]. */
  lemma ScrapedMeanBounds(text: string, scraped: seq<(string, real)>, lo: real, hi: real)
    requires |scraped| > 0
    requires forall i :: 0 <= i < |scraped| ==> lo <= scraped[i].1 <= hi
    ensures lo <= FromText(text, scraped).overallScore.value <= hi
  {
    var v := ScrapedScores(scraped);
    var keys := ScrapedKeys(scraped);
    forall i | 0 <= i < |v|
      ensures lo <= v[i] <= hi
    {
      var last := LastScore(scraped, keys[i]);
      var m :| 0 <= m < |scraped| && NameAt(scraped, m) == keys[i] && scraped[m].1 == last.value
               && forall j :: m < j < |scraped| ==> NameAt(scraped, j) != keys[i];
    }
    Seqs.MeanBounds(v, lo, hi);
  }

  /** `parseAIResponse`. `json` is what `JSON.parse` gave for the extracted
      braces (absent when it threw); `scraped` feeds the text fallback. */
  function ParseAIResponse(text: string, json: Option<Parsed>, scraped: seq<(string, real)>): (r: Analysis)
    ensures SaysNotFoot(text) ==> r == NotFootAnalysis
    ensures !SaysNotFoot(text) && json.Some? ==> r == Structure(json.value)
    ensures !SaysNotFoot(text) && json.None? ==> r == Structure(FromText(text, scraped))
    ensures !SaysNotFoot(text) && json.None? ==>
      && r.confidenceScore == 85.0
      && (r.isFootDetected <==> !Strings.Contains(Strings.ToLower(text), "not a foot"))
      && r.overallScore == (if |scraped| > 0 && Seqs.Mean(ScrapedScores(scraped)) != 0.0
                            then Seqs.Mean(ScrapedScores(scraped)) else 5.0)
  {
    if SaysNotFoot(text) then NotFootAnalysis
    else Structure(if json.Some? then json.value else FromText(text, scraped))
  }

  /** The not-a-foot record: no foot, every score 0, confidence 100. */
  lemma NotFootScores(text: string, json: Option<Parsed>, scraped: seq<(string, real)>)
    requires SaysNotFoot(text)
    ensures var r := ParseAIResponse(text, json, scraped);
      && !r.isFootDetected && r.overallScore == 0.0 && r.confidenceScore == 100.0
      && r.skinCondition.score == 0.0 && r.nailHealth.score == 0.0 && r.footShape.score == 0.0
      && r.symmetry.score == 0.0 && r.cleanliness.score == 0.0
  {
  }

  /** A score the section gives (a non-zero one) lies in [1, 10]. */
  predicate GivenInRange(s: Option<Section>) {
    TruthyNum(ScoreIn(s)) ==> 1.0 <= ScoreIn(s).value <= 10.0
  }

  /** Every category score the answer gives lies in [1, 10]. */
  predicate GivenScoresInRange(d: Parsed) {
    && GivenInRange(d.skinCondition) && GivenInRange(d.nailHealth) && GivenInRange(d.footShape)
    && GivenInRange(d.footStructure) && GivenInRange(d.symmetry) && GivenInRange(d.cleanliness)
  }

  /** Scores the model gave inside [1, 10] stay there, and a missing or zero
      score becomes 5, so every category of a foot result lies in [1, 10]. */
  lemma StructuredScoresInRange(d: Parsed)
    requires GivenScoresInRange(d)
    ensures var r := Structure(d);
      && 1.0 <= r.skinCondition.score <= 10.0 && 1.0 <= r.nailHealth.score <= 10.0
      && 1.0 <= r.footShape.score <= 10.0 && 1.0 <= r.symmetry.score <= 10.0
      && 1.0 <= r.cleanliness.score <= 10.0
  {
  }

  // ---- five-score mean ----

  /** `Number(x) || 5`. */
  function OrFive(x: Option<real>): (r: real)
    ensures r != 0.0
    ensures TruthyNum(x) ==> r == x.value
  {
    if TruthyNum(x) then x.value else 5.0
  }

  /** `calculateOverallScore`: the mean of the five category scores, the
      shape score falling back to the structure score, a missing or zero
      score counting as 5. */
  function CalculateOverallScore(d: Parsed): (m: real)
    ensures m == Seqs.Mean(FiveScores(d))
  {
    Seqs.Sum(FiveScores(d)) / 5.0
  }

  /** The five scores the mean is taken over: a missing or zero score
      counts as 5, the shape score falls back to the structure score, and
      so none of them is 0. */
  function FiveScores(d: Parsed): (s: seq<real>)
    ensures |s| == 5
    ensures 0.0 !in s
    ensures !TruthyNum(ScoreIn(d.skinCondition)) ==> s[0] == 5.0
    ensures !TruthyNum(ScoreIn(d.nailHealth)) ==> s[1] == 5.0
    ensures !TruthyNum(ScoreIn(d.footShape)) && TruthyNum(ScoreIn(d.footStructure)) ==> s[2] == ScoreIn(d.footStructure).value
    ensures !TruthyNum(ScoreIn(d.footShape)) && !TruthyNum(ScoreIn(d.footStructure)) ==> s[2] == 5.0
    ensures !TruthyNum(ScoreIn(d.symmetry)) ==> s[3] == 5.0
    ensures !TruthyNum(ScoreIn(d.cleanliness)) ==> s[4] == 5.0
    ensures TruthyNum(ScoreIn(d.skinCondition)) ==> s[0] == ScoreIn(d.skinCondition).value
    ensures TruthyNum(ScoreIn(d.nailHealth)) ==> s[1] == ScoreIn(d.nailHealth).value
    ensures TruthyNum(ScoreIn(d.footShape)) ==> s[2] == ScoreIn(d.footShape).value
    ensures TruthyNum(ScoreIn(d.symmetry)) ==> s[3] == ScoreIn(d.symmetry).value
    ensures TruthyNum(ScoreIn(d.cleanliness)) ==> s[4] == ScoreIn(d.cleanliness).value
  {
    var shape := if TruthyNum(ScoreIn(d.footShape)) then ScoreIn(d.footShape) else ScoreIn(d.footStructure);
    [OrFive(ScoreIn(d.skinCondition)), OrFive(ScoreIn(d.nailHealth)), OrFive(shape),
     OrFive(ScoreIn(d.symmetry)), OrFive(ScoreIn(d.cleanliness))]
  }

  /** A normalised category's score is the `|| 5` of the primary score
      falling back to the secondary one. */
  lemma NormalisedScore(a: Option<Section>, b: Option<Section>)
    ensures Normalise(a, b).score == OrFive(if TruthyNum(ScoreIn(a)) then ScoreIn(a) else ScoreIn(b))
  {
  }

  /** The five scores are the category scores the result structure shows,
      so `calculateOverallScore` is the mean of the displayed breakdown. */
  lemma FiveScoresAreShown(d: Parsed)
    ensures var r := Structure(d);
      FiveScores(d) == [r.skinCondition.score, r.nailHealth.score, r.footShape.score, r.symmetry.score, r.cleanliness.score]
  {
    NormalisedScore(d.skinCondition, None);
    NormalisedScore(d.nailHealth, None);
    NormalisedScore(d.footShape, d.footStructure);
    NormalisedScore(d.symmetry, None);
    NormalisedScore(d.cleanliness, None);
  }

  /** With every given score in [1, 10] the mean is in [1, 10]; with none
      given it is exactly 5. */
  lemma OverallScoreInRange(d: Parsed)
    requires GivenScoresInRange(d)
    ensures 1.0 <= CalculateOverallScore(d) <= 10.0
  {
    var f := FiveScores(d);
    assert forall i :: 0 <= i < 5 ==> 1.0 <= f[i] <= 10.0;
    Seqs.MeanBounds(f, 1.0, 10.0);
  }

  lemma OverallScoreDefault(d: Parsed)
    requires d.skinCondition.None? && d.nailHealth.None? && d.footShape.None? && d.footStructure.None?
    requires d.symmetry.None? && d.cleanliness.None?
    ensures CalculateOverallScore(d) == 5.0
  {
    Seqs.MeanBounds(FiveScores(d), 5.0, 5.0);
  }
}
