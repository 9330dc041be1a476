/** internal/pathutil: the boundary-aware prefix test. */
module PathUtil {
  import opened GoPath

  predicate HasPathPrefix(p: string, prefix: string) {
    if prefix == "" then false
    else
      var trimmed := TrimRightSlashes(prefix);
      if trimmed == "" then HasPrefix(p, "/") else AtOrBelow(p, trimmed)
  }

  /** On clean absolute paths it is the prefix order on segments, the root included. */
  lemma HasPathPrefixIsSegmentPrefix(p: string, prefix: string)
    requires CleanAbs(p) && CleanAbs(prefix)
    ensures HasPathPrefix(p, prefix) <==> Segs(prefix) <= Segs(p)
  {
    CleanAbsSegs(prefix);
    if prefix == "/" {
      assert TrimRightSlashes("") == "" && prefix[..|prefix| - 1] == "";
    } else {
      var segs := Segs(prefix);
      GlueLast(segs);
      assert prefix[|prefix| - 1] == Glue(segs)[|Glue(segs)| - 1];
      AtOrBelowIsSegmentPrefix(p, prefix);
    }
  }

  /** A glued list of named segments does not end in a slash. */
  lemma {:induction false} GlueLast(segs: seq<string>)
    requires segs != [] && forall k :: 0 <= k < |segs| ==> Ordinary(segs[k])
    ensures Glue(segs) != "" && Glue(segs)[|Glue(segs)| - 1] != '/'
  {
    if |segs| > 1 {
      GlueLast(segs[1..]);
    }
  }
}
