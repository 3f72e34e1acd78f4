/** The analysis history list (src/components/RatingHistory.tsx): the
    user's saved analyses, their average, and per entry the rating band,
    a five-star row and the colour of each category score. The query is an
    input; dates and number formatting are not modelled. */
module RatingHistory {
  import opened Wrappers
  import Numeric
  import Seqs
  import Stars
  import RatingDisplay

  /** A saved `foot_analyses` row, as far as the list reads it. */
  datatype Saved = Saved(overall: real, skin: real, nail: real, shape: real, symmetry: real, cleanliness: real,
                         confidence: real)

  /** The rows the component holds after `fetchAnalyses`: a failed query
      (or one returning no data) gives the empty list and no error is
      shown. */
  function Fetched(query: Result<Option<seq<Saved>>, string>): (r: seq<Saved>)
    ensures query.Err? ==> r == []
    ensures query.Ok? && query.value.None? ==> r == []
    ensures query.Ok? && query.value.Some? ==> r == query.value.value
  {
    match query
    case Err(_) => []
    case Ok(data) => data.GetOr([])
  }

  function OverallScores(rows: seq<Saved>): (s: seq<real>)
    ensures |s| == |rows| && forall i :: 0 <= i < |rows| ==> s[i] == rows[i].overall
  {
    seq(|rows|, i requires 0 <= i < |rows| => rows[i].overall)
  }

  /** `averageRating`: the mean overall score, 0 for no rows. */
  function AverageRating(rows: seq<Saved>): (m: real)
    ensures |rows| == 0 ==> m == 0.0
    ensures m == Seqs.Mean(OverallScores(rows))
  {
    if |rows| > 0 then Seqs.Sum(OverallScores(rows)) / |rows| as real else 0.0
  }

  /** The average lies within the range of the scores it averages. */
  lemma AverageInRange(rows: seq<Saved>, lo: real, hi: real)
    requires |rows| > 0
    requires forall i :: 0 <= i < |rows| ==> lo <= rows[i].overall <= hi
    ensures lo <= AverageRating(rows) <= hi
  {
    Seqs.MeanBounds(OverallScores(rows), lo, hi);
  }

  /** The breakdown colour of a category score. */
  datatype Shade = Green | Yellow | Red

  /** Green from 7, yellow from 5, red below. */
  function ShadeOf(score: real): (c: Shade)
    ensures c == Green <==> score >= 7.0
    ensures c == Yellow <==> 5.0 <= score < 7.0
    ensures c == Red <==> score < 5.0
  {
    if score >= 7.0 then Green else if score >= 5.0 then Yellow else Red
  }

  /** One list entry. */
  datatype Entry = Entry(band: RatingDisplay.Band, stars: seq<bool>, shades: seq<Shade>)

  /** An entry: the band of the overall score, five stars of which the first
      `floor(overall / 2)` are filled, and the five category shades. */
  function EntryOf(s: Saved): (e: Entry)
    ensures e.band == RatingDisplay.Category(s.overall)
    ensures |e.stars| == 5
    ensures Stars.Filled(e.stars) == Stars.ClampCount(Numeric.Floor(s.overall / 2.0), 5)
    ensures e.shades == [ShadeOf(s.skin), ShadeOf(s.nail), ShadeOf(s.shape), ShadeOf(s.symmetry), ShadeOf(s.cleanliness)]
  {
    Stars.FilledRowWhole(5, Numeric.Floor(s.overall / 2.0));
    Entry(RatingDisplay.Category(s.overall), Stars.Row(5, Numeric.Floor(s.overall / 2.0) as real),
          [ShadeOf(s.skin), ShadeOf(s.nail), ShadeOf(s.shape), ShadeOf(s.symmetry), ShadeOf(s.cleanliness)])
  }

  /** Five stars for ten points: a score in [0, 10] fills `floor(score / 2)`
      stars, so each filled star stands for two whole points. */
  lemma HalfStars(s: Saved)
    requires 0.0 <= s.overall <= 10.0
    ensures var n := Stars.Filled(EntryOf(s).stars);
      && n == Numeric.Floor(s.overall / 2.0)
      && 2 * n <= s.overall.Floor && s.overall < (2 * n + 2) as real
  {
  }

  /** What the component shows. */
  datatype View =
    | Loading
    | Empty                                    // "No AI analyses yet"
    | List(average: real, entries: seq<Entry>)

  /** `RatingHistory` once the query has answered (`loading` false) or
      before (`loading` true). The average is shown only with a non-empty
      list. */
  function Render(loading: bool, query: Result<Option<seq<Saved>>, string>): (v: View)
    ensures loading <==> v.Loading?
    ensures !loading ==> (v.Empty? <==> |Fetched(query)| == 0)
    ensures v.List? ==>
      && v.average == AverageRating(Fetched(query))
      && |v.entries| == |Fetched(query)|
      && forall i :: 0 <= i < |v.entries| ==> v.entries[i] == EntryOf(Fetched(query)[i])
  {
    if loading then Loading
    else
      var rows := Fetched(query);
      if |rows| == 0 then Empty
      else List(AverageRating(rows), seq(|rows|, i requires 0 <= i < |rows| => EntryOf(rows[i])))
  }

  /** A failed query ends in the empty state, not an error. */
  lemma FailedQueryShowsEmpty(e: string)
    ensures Render(false, Err(e)) == Empty
  {
  }
}
