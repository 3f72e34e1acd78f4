/** The rows of star icons the rating components draw: a fixed number of
    stars, star `i` (counting from 0) filled when `i` is below a threshold. */
module Stars {
  import Numeric

  /** A row of `total` stars; `r[i]` says whether star `i` is filled. */
  function Row(total: nat, x: real): (r: seq<bool>)
    ensures |r| == total
    ensures forall i :: 0 <= i < total ==> (r[i] <==> (i as real) < x)
  {
    seq(total, i => (i as real) < x)
  }

  /** The number of filled stars. */
  function Filled(r: seq<bool>): nat
    decreases |r|
  {
    if |r| == 0 then 0 else Filled(r[..|r| - 1]) + (if r[|r| - 1] then 1 else 0)
  }

  /** A threshold clamped to `[0, total]`. */
  function ClampCount(n: int, total: nat): (c: nat)
    ensures c <= total
    ensures 0 <= n <= total ==> c == n
  {
    if n < 0 then 0 else if n > total then total else n
  }

  /** A row shows as many filled stars as there are whole numbers from 0
      below the threshold, capped at the row's length: the threshold rounded
      up and clamped to `[0, total]`. */
  lemma {:induction false} FilledRow(total: nat, x: real)
    ensures Filled(Row(total, x)) == ClampCount(Numeric.Ceil(x), total)
    decreases total
  {
    if total > 0 {
      var r := Row(total, x);
      assert r[..total - 1] == Row(total - 1, x);
      FilledRow(total - 1, x);
    }
  }

  /** For a whole-number threshold the filled count is that number, clamped. */
  lemma FilledRowWhole(total: nat, n: int)
    ensures Filled(Row(total, n as real)) == ClampCount(n, total)
  {
    FilledRow(total, n as real);
  }
}
