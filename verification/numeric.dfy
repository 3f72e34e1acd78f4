/** JavaScript number helpers the scoring and display code shares:
    `Math.round`, rounding to a tenth, clamping, and the "first threshold
    reached" choice behind every if-chain of score bands. */
module Numeric {

  /** `Math.round`: halves round up. */
  function Round(x: real): (n: int)
    ensures n as real - 0.5 <= x < n as real + 0.5
  {
    (x + 0.5).Floor
  }

  /** `Math.floor`. */
  function Floor(x: real): (n: int)
    ensures n as real <= x < n as real + 1.0
  {
    x.Floor
  }

  /** The least integer at or above `x`. */
  function Ceil(x: real): (n: int)
    ensures n as real - 1.0 < x <= n as real
  {
    -((-x).Floor)
  }

  /** `Math.round(x * 10) / 10`: a whole number of tenths, within half a
      tenth of `x`, halves going up. */
  function RoundTenth(x: real): (r: real)
    ensures x - 0.05 < r <= x + 0.05
    ensures (r * 10.0).Floor as real == r * 10.0
  {
    Round(x * 10.0) as real / 10.0
  }

  /** Only one whole number of tenths lies in (x - 0.05, x + 0.05], so the
      two clauses of `RoundTenth` pin its value. */
  lemma RoundTenthUnique(x: real, t: real)
    requires (t * 10.0).Floor as real == t * 10.0
    requires x - 0.05 < t <= x + 0.05
    ensures t == RoundTenth(x)
  {
    var r := RoundTenth(x);
    var a := (t * 10.0).Floor;
    var b := (r * 10.0).Floor;
    assert -1.0 < (a - b) as real < 1.0;
  }

  /** Rounding to a tenth keeps a value inside [1, 10]. */
  lemma RoundTenthInRange(x: real)
    requires 1.0 <= x <= 10.0
    ensures 1.0 <= RoundTenth(x) <= 10.0
  {
    var n := Round(x * 10.0);
    assert 10 <= n <= 100;
  }

  function Abs(x: real): real {
    if x < 0.0 then -x else x
  }

  function Min(a: real, b: real): real {
    if a <= b then a else b
  }

  /** `Math.max(lo, Math.min(hi, x))`. */
  function Clamp(x: real, lo: real, hi: real): (r: real)
    requires lo <= hi
    ensures lo <= r <= hi
    ensures lo <= x <= hi ==> r == x
    ensures x < lo ==> r == lo
    ensures x > hi ==> r == hi
  {
    if x > hi then hi else if x < lo then lo else x
  }

  /** The band a score falls in: the first threshold it reaches, or one past
      the last when it reaches none. */
  function TierIndex(score: real, thresholds: seq<real>): (j: nat)
    ensures j <= |thresholds|
    ensures forall k :: 0 <= k < j ==> score < thresholds[k]
    ensures j < |thresholds| ==> score >= thresholds[j]
    decreases |thresholds|
  {
    if |thresholds| == 0 then 0
    else if score >= thresholds[0] then 0
    else 1 + TierIndex(score, thresholds[1..])
  }

  /** Thresholds in strictly descending order. */
  predicate Descending(thresholds: seq<real>) {
    forall i, j :: 0 <= i < j < |thresholds| ==> thresholds[i] > thresholds[j]
  }

  /** With descending thresholds, a higher score never lands in a lower band. */
  lemma TierMonotone(a: real, b: real, thresholds: seq<real>)
    requires a <= b
    requires Descending(thresholds)
    ensures TierIndex(b, thresholds) <= TierIndex(a, thresholds)
  {
  }
}
