/** Small shared vocabulary: optional values, extrema and sequence suffixes. */
module Common {

  datatype Option<+T> = None | Some(value: T)

  function Max(a: int, b: int): (m: int) {
    if a < b then b else a
  }

  function Min(a: int, b: int): (m: int) {
    if a < b then a else b
  }

  /** The last n elements of s, or all of s when it is shorter. */
  function LastN<T>(s: seq<T>, n: nat): (r: seq<T>) {
    if |s| <= n then s else s[|s| - n..]
  }

  /** What LastN leaves out: s is Overflow(s, n) + LastN(s, n). */
  function Overflow<T>(s: seq<T>, n: nat): (r: seq<T>)
    ensures s == r + LastN(s, n)
  {
    if |s| <= n then [] else s[..|s| - n]
  }
}
