/** Numeric vocabulary shared by every component of the dashboard.

JavaScript numbers are modelled as Dafny `real`s (exact, no IEEE rounding);
the rounding the dashboard performs with `Math.round` is written out with
`Floor`, and the clamped random walk with explicit `Min`/`Max`. */
module Base {

  datatype Option<+T> = None | Some(value: T)

  /** A draw of `Math.random()`: a number in [0, 1). */
  type Random = r: real | 0.0 <= r < 1.0

  /** A value read from a prop declared `number`: JavaScript does not enforce
      the declaration, so the sanitisers see numbers, NaN, and anything else
      (`undefined`, a string, ...), which `typeof` does not call a number. */
  datatype JsNumber = Num(value: real) | NaN | NotNumber {
    /** `typeof v === 'number'` (NaN is a number to `typeof`). */
    predicate IsNumberTyped() { !NotNumber? }
  }

  /** The colour families used by badges, dots and alert frames. */
  datatype Tone = Green | Yellow | Red | Blue | Gray

  function Min(a: real, b: real): real { if a <= b then a else b }
  function Max(a: real, b: real): real { if a >= b then a else b }

  /** `Math.max(lo, Math.min(hi, x))`. */
  function Clamp(lo: real, hi: real, x: real): (r: real)
    requires lo <= hi
    ensures lo <= r <= hi
    ensures lo <= x <= hi ==> r == x
    ensures x < lo ==> r == lo
    ensures hi < x ==> r == hi
  {
    Max(lo, Min(hi, x))
  }

  /** `Math.round(x)`: the nearest integer, halves rounded towards +infinity. */
  function Round(x: real): (r: int)
    ensures x - 0.5 < r as real <= x + 0.5
  {
    (x + 0.5).Floor
  }

  /** `Math.round(x * 10) / 10`: the nearest tenth. */
  function Round10(x: real): (r: real)
    ensures x - 0.05 < r <= x + 0.05
    ensures OnTenthGrid(r)
  {
    RoundOfInteger(Round(x * 10.0));
    Round(x * 10.0) as real / 10.0
  }

  /** `x` is a whole number of tenths. */
  predicate OnTenthGrid(x: real) {
    (Round(x * 10.0) as real) / 10.0 == x
  }

  lemma RoundOfInteger(k: int)
    ensures Round(k as real) == k
    ensures OnTenthGrid(k as real / 10.0)
  {
    assert (k as real / 10.0) * 10.0 == k as real;
  }

  /** Rounding a value that lies between two integers stays between them. */
  lemma RoundWithin(x: real, lo: int, hi: int)
    requires lo as real <= x <= hi as real
    ensures lo <= Round(x) <= hi
  {
  }

  /** Rounding to tenths a value that lies between two integers stays between them. */
  lemma Round10Within(x: real, lo: int, hi: int)
    requires lo as real <= x <= hi as real
    ensures lo as real <= Round10(x) <= hi as real
  {
    RoundWithin(x * 10.0, lo * 10, hi * 10);
  }

  /** Rounding to tenths is idempotent: a value already on the grid is kept. */
  lemma Round10OfGrid(x: real)
    requires OnTenthGrid(x)
    ensures Round10(x) == x
  {
  }
}
