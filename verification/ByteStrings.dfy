/** Byte strings with Python's slices. */
module ByteStrings {
  newtype Byte = x: int | 0 <= x < 256

  type Bytes = seq<Byte>

  /** Where Python's slice bound i falls in a string of n bytes: negative bounds count from the end. */
  function Bound(i: int, n: nat): (r: nat)
    ensures r <= n
  {
    if i > n then n else if i >= 0 then i else if i + n >= 0 then i + n else 0
  }

  /** s[lo:hi] */
  function Slice(s: Bytes, lo: int, hi: int): (r: Bytes)
    ensures |r| <= |s|
    ensures 0 <= lo <= |s| ==> lo + |r| <= |s| && r == s[lo..lo + |r|]
  {
    var (from, end) := (Bound(lo, |s|), Bound(hi, |s|));
    if from < end then s[from..end] else []
  }

  /** s[lo:] */
  function Tail(s: Bytes, lo: int): Bytes {
    s[Bound(lo, |s|)..]
  }
}
