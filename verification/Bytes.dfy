/** Bytes, the control characters the stream filters look for, and the two
    search primitives of Go's `bytes` package that they use. */
module Bytes {
  newtype byte = x: int | 0 <= x < 256

  const LF: byte := 0x0a
  const CR: byte := 0x0d
  const ESC: byte := 0x1b
  const BEL: byte := 0x07
  const BACKSLASH: byte := 0x5c
  const BRACKET: byte := 0x5d
  const SEMICOLON: byte := 0x3b
  const ZERO: byte := 0x30
  const TWO: byte := 0x32

  /** `bytes.IndexAny`, and `bytes.IndexByte` for a singleton set: the first
      position holding one of `marks`, or -1. */
  method IndexAny(p: seq<byte>, marks: set<byte>) returns (i: int)
    ensures -1 <= i < |p|
    ensures i >= 0 ==> p[i] in marks && forall k :: 0 <= k < i ==> p[k] !in marks
    ensures i == -1 ==> forall k :: 0 <= k < |p| ==> p[k] !in marks
  {
    for k := 0 to |p|
      invariant forall j :: 0 <= j < k ==> p[j] !in marks
    {
      if p[k] in marks {
        return k;
      }
    }
    return -1;
  }

  /** `a` can be obtained from `b` by deleting bytes. */
  predicate Subsequence(a: seq<byte>, b: seq<byte>) {
    a == [] || (b != [] && ((a[0] == b[0] && Subsequence(a[1..], b[1..])) || Subsequence(a, b[1..])))
  }

  /** `s` with every occurrence of `x` deleted. */
  function Without(s: seq<byte>, x: byte): seq<byte> {
    if s == [] then [] else (if s[0] == x then [] else [s[0]]) + Without(s[1..], x)
  }
}
