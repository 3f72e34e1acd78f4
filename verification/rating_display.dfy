/** The compact rating card (src/components/RatingDisplay.tsx): the four
    rating bands and the ten-star row. Styling and icons are not modelled. */
module RatingDisplay {
  import opened Wrappers
  import Numeric
  import Stars

  /** The four bands this card and the history list share, best first. */
  datatype Band = Exceptional | Excellent | Good | Fair

  function Label(b: Band): string {
    match b
    case Exceptional => "Exceptional"
    case Excellent => "Excellent"
    case Good => "Good"
    case Fair => "Fair"
  }

  /** `getRatingCategory`, cut at 9, 8 and 7; every score lands in exactly
      one band. */
  function Category(score: real): (b: Band)
    ensures b == Exceptional <==> score >= 9.0
    ensures b == Excellent <==> 8.0 <= score < 9.0
    ensures b == Good <==> 7.0 <= score < 8.0
    ensures b == Fair <==> score < 7.0
  {
    if score >= 9.0 then Exceptional
    else if score >= 8.0 then Excellent
    else if score >= 7.0 then Good
    else Fair
  }

  /** What the card shows. */
  datatype Card = Card(rating: real, band: Band, stars: seq<bool>)

  /** `RatingDisplay`: nothing for a null rating; otherwise the band and ten
      stars, star `i` filled when `i < rating`. */
  function Render(rating: Option<real>): (r: Option<Card>)
    ensures r.None? <==> rating.None?
    ensures r.Some? ==>
      && r.value.rating == rating.value
      && r.value.band == Category(rating.value)
      && |r.value.stars| == 10
      && (forall i :: 0 <= i < 10 ==> (r.value.stars[i] <==> (i as real) < rating.value))
      && Stars.Filled(r.value.stars) == Stars.ClampCount(Numeric.Ceil(rating.value), 10)
  {
    match rating
    case None => None
    case Some(x) =>
      Stars.FilledRow(10, x);
      Some(Card(x, Category(x), Stars.Row(10, x)))
  }

  /** A whole rating from 0 to 10 fills exactly that many stars; a
      fractional one rounds up (7.5 fills eight). */
  lemma StarsForRating(x: real)
    requires 0.0 <= x <= 10.0
    ensures Stars.Filled(Render(Some(x)).value.stars) == Numeric.Ceil(x)
    ensures x == x.Floor as real ==> Stars.Filled(Render(Some(x)).value.stars) == x.Floor
  {
  }
}
