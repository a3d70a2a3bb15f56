/** String helpers that follow Python's semantics. */
module PyStrings {

  /** Python's `c * n` for a one-character string `c`: empty when `n <= 0`. */
  function Repeat(c: char, n: int): (s: string)
    ensures |s| == if n <= 0 then 0 else n
    ensures forall k :: 0 <= k < |s| ==> s[k] == c
    decreases n
  {
    if n <= 0 then "" else Repeat(c, n - 1) + [c]
  }
}
