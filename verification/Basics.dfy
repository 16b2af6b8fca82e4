/** What several components take from their languages' libraries. */
module Basics {

  function Max(a: int, b: int): int {
    if a >= b then a else b
  }

  function Min(a: int, b: int): int {
    if a <= b then a else b
  }

  /** `max(lo, min(hi, x))`. */
  function Clip(x: real, lo: real, hi: real): real {
    var capped := if x < hi then x else hi;
    if capped > lo then capped else lo
  }

  /** `" ".join(words)`. */
  function Join(words: seq<string>): string {
    if |words| == 0 then "" else if |words| == 1 then words[0] else words[0] + " " + Join(words[1..])
  }
}
