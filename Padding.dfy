/**
 * Left-aligned padding, as written by `Padded::fmt` with the format
 * `{: <width$}`: the value is followed by blanks up to `width` characters
 * and is never cut short.
 */
module Padding {
  /** The larger of two widths. */
  function Max(a: nat, b: nat): (m: nat)
    ensures a <= m && b <= m
    ensures m == a || m == b
  {
    if a < b then b else a
  }

  /** `n` blanks. */
  function Spaces(n: nat): (r: string)
    ensures |r| == n
    ensures forall i :: 0 <= i < n ==> r[i] == ' '
  {
    if n == 0 then "" else Spaces(n - 1) + " "
  }

  /**
   * `value` left-aligned in a field of `width` characters: the result starts
   * with the whole of `value`, is `max(width, |value|)` long and is blank
   * after `value`.
   */
  function Pad(value: string, width: nat): (r: string)
    ensures |r| == Max(width, |value|)
    ensures r[..|value|] == value
    ensures forall i :: |value| <= i < |r| ==> r[i] == ' '
  {
    if |value| < width then value + Spaces(width - |value|) else value
  }

  /** `r` is `value` followed by blanks, and is `max(width, |value|)` long. */
  ghost predicate IsPadding(value: string, width: nat, r: string)
  {
    && |r| == Max(width, |value|)
    && |value| <= |r|
    && r[..|value|] == value
    && forall i :: |value| <= i < |r| ==> r[i] == ' '
  }

  /** `Pad` is the one and only padding of `value` to `width`. */
  lemma PadUnique(value: string, width: nat, r: string)
    ensures IsPadding(value, width, r) <==> r == Pad(value, width)
  {
    var p := Pad(value, width);
    if IsPadding(value, width, r) {
      forall i | 0 <= i < |r|
        ensures r[i] == p[i]
      {
        if i < |value| {
          assert r[i] == r[..|value|][i] && p[i] == p[..|value|][i];
        }
      }
    }
  }
}
