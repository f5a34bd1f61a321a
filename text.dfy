/** Character-repetition strings, the `std::string(count, ch)` constructor of C++. */
module Text {

  /** `n` copies of `c`; like `std::string(n, c)`, but empty for every `n <= 0`. */
  function Repeat(c: char, n: int): (r: string)
    ensures |r| == (if n <= 0 then 0 else n)
    ensures forall k :: 0 <= k < |r| ==> r[k] == c
    decreases n
  {
    if n <= 0 then "" else [c] + Repeat(c, n - 1)
  }
}
