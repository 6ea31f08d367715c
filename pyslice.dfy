/**
 * The two bits of Python arithmetic that the window assembly relies on:
 * `int(x)` on a float, and slicing `s[:n]` / `s[n:]`, which clamps an
 * out-of-range bound instead of failing and counts a negative bound from
 * the end of the sequence.
 */
module PySlice {

  /** `int(x)` for a float `x`: truncation toward zero. */
  function Truncate(x: real): (r: int)
    ensures 0.0 <= x ==> 0 <= r && r as real <= x < r as real + 1.0
    ensures x < 0.0 ==> r <= 0 && r as real - 1.0 < x <= r as real
  {
    if x >= 0.0 then x.Floor else -((-x).Floor)
  }

  /** The position a slice bound `n` denotes in a sequence of length `len`. */
  function Bound(n: int, len: nat): (k: nat)
    ensures k <= len
    ensures 0 <= n <= len ==> k == n
    ensures len < n ==> k == len
    ensures n < 0 && -n <= len ==> k == len + n
    ensures n < 0 && len < -n ==> k == 0
  {
    if n < 0 then (if len + n < 0 then 0 else len + n)
    else if n > len then len
    else n
  }

  /** `s[:n]`. */
  function Take<T>(s: seq<T>, n: int): (r: seq<T>)
    ensures |r| == Bound(n, |s|) && r == s[..|r|]
    ensures 0 <= n <= |s| ==> |r| == n
    ensures |s| <= n ==> r == s
  {
    s[..Bound(n, |s|)]
  }

  /** `s[n:]`: what `s[:n]` leaves behind. */
  function Drop<T>(s: seq<T>, n: int): (r: seq<T>)
    ensures Take(s, n) + r == s
    ensures |r| == |s| - Bound(n, |s|)
    ensures 0 <= n <= |s| ==> |r| == |s| - n
    ensures |s| <= n ==> r == []
  {
    s[Bound(n, |s|)..]
  }
}
