/** Rewriting the completion block of a shell profile (cmd/opspulse/completion.go). */
module Profile {
  import opened Substrings
  import opened Wrappers

  // ----- occurrences -----

  function IndexFrom(s: string, m: string, from: nat): (r: int)
    ensures r == -1 || r >= from
    ensures r == -1 ==> forall i :: from <= i ==> !At(s, i, m)
    ensures r != -1 ==> At(s, r, m) && forall i :: from <= i < r ==> !At(s, i, m)
    decreases |s| - from
  {
    if from + |m| > |s| then -1 else if At(s, from, m) then from else IndexFrom(s, m, from + 1)
  }

  /** `strings.Index`: the first occurrence, -1 if there is none. */
  function Index(s: string, m: string): (r: int)
    ensures r == -1 <==> forall i: nat :: !At(s, i, m)
    ensures r >= -1
    ensures r != -1 ==> At(s, r, m) && forall i: nat :: i < r ==> !At(s, i, m)
  {
    IndexFrom(s, m, 0)
  }

  lemma IndexIs(s: string, m: string, k: nat)
    requires At(s, k, m) && forall i: nat :: i < k ==> !At(s, i, m)
    ensures Index(s, m) == k
  {
  }

  // ----- markers and blocks -----

  /** A marker starts a comment, and is one line with no other '#'. */
  predicate Marker(m: string) {
    m != "" && m[0] == '#' && forall i :: 0 < i < |m| ==> m[i] != '#' && m[i] != '\n'
  }

  const BEGIN := "# >>> Ops Completion >>>"
  const END := "# <<< Ops Completion <<<"

  lemma MarkersAreMarkers()
    ensures Marker(BEGIN) && Marker(END) && |BEGIN| == |END| && BEGIN != END
  {
    assert BEGIN[2] != END[2];
  }

  /** The block between the markers; the generated shell code holds no '#'. */
  function Block(b: string, code: string, e: string): string {
    b + code + e + "\n"
  }

  predicate Fits(b: string, code: string, e: string) {
    Marker(b) && Marker(e) && |b| == |e| && b != e && '#' !in code
  }

  // ----- the rewriting -----

  function AfterLine(s: string, i: nat): nat {
    if i < |s| && s[i] == '\n' then i + 1 else i
  }

  predicate HasBlock(s: string, b: string, e: string) {
    Index(s, b) != -1 && Index(s, e) != -1 && Index(s, e) >= Index(s, b)
  }

  function Ended(s: string): string {
    if s != "" && s[|s| - 1] == '\n' then s else s + "\n"
  }

  /** What the profile becomes. */
  function Updated(s: string, b: string, e: string, block: string): string {
    if s == "" then block
    else if HasBlock(s, b, e) then s[..Index(s, b)] + block + s[AfterLine(s, Index(s, e) + |e|)..]
    else Ended(s) + "\n" + block
  }

  /** The profile on disk, none while it cannot be read. */
  class ProfileFile {
    var content: Option<string>

    constructor (content: Option<string>)
      ensures this.content == content
    {
      this.content := content;
    }

    function Text(): string
      reads this
    {
      if content.Some? then content.value else ""
    }

    /** updateProfileFile. */
    method Update(b: string, e: string, block: string)
      modifies this
      ensures content == Some(Updated(old(Text()), b, e, block))
    {
      var existing := if content.Some? then content.value else "";
      var updated := Rewrite(existing, b, e, block);
      content := Some(updated);
    }
  }

  method Rewrite(existing: string, b: string, e: string, block: string) returns (updated: string)
    ensures updated == Updated(existing, b, e, block)
  {
    if existing == "" {
      return block;
    }
    var start, end := Index(existing, b), Index(existing, e);
    if start != -1 && end != -1 && end >= start {
      end := end + |e|;
      if end < |existing| && existing[end] == '\n' {
        end := end + 1;
      }
      return existing[..start] + block + existing[end..];
    }
    var front := existing;
    if front[|front| - 1] != '\n' {
      front := front + "\n";
    }
    updated := front + "\n" + block;
  }

  // ----- seams -----

  lemma InnerChar(s: string, m: string, i: nat, k: nat)
    requires Marker(m) && At(s, i, m) && i < k < i + |m|
    ensures s[k] != '#' && s[k] != '\n'
  {
    assert s[k] == s[i..i + |m|][k - i];
  }

  /** No marker straddles the place where a '#' begins the second part. */
  lemma Seam(x: string, y: string, m: string, i: nat)
    requires Marker(m) && y != "" && y[0] == '#' && At(x + y, i, m)
    ensures At(x, i, m) || (i >= |x| && At(y, i - |x|, m))
  {
    var s := x + y;
    assert s[|x|] == '#';
    if i >= |x| {
      assert s[i..i + |m|] == y[i - |x|..i - |x| + |m|];
    } else if i + |m| <= |x| {
      assert s[i..i + |m|] == x[i..i + |m|];
    } else {
      InnerChar(s, m, i, |x|);
    }
  }

  /** Nor does it contain an appended line break. */
  lemma LineBreakSeam(x: string, m: string, i: nat)
    requires Marker(m) && At(x + "\n", i, m)
    ensures At(x, i, m)
  {
    var s := x + "\n";
    assert s[|x|] == '\n' && s[i] == s[i..i + |m|][0] == '#';
    if i + |m| <= |x| {
      assert s[i..i + |m|] == x[i..i + |m|];
    } else if i < |x| {
      InnerChar(s, m, i, |x|);
    }
  }

  lemma BlockBegins(b: string, code: string, e: string, post: string)
    requires Fits(b, code, e)
    ensures At(Block(b, code, e) + post, 0, b) && (Block(b, code, e) + post)[0] == '#'
  {
    var s := Block(b, code, e) + post;
    assert s[0..|b|] == b;
  }

  lemma StartsWithHash(s: string, m: string, i: nat)
    requires Marker(m)
    ensures At(s, i, m) ==> s[i] == '#'
  {
    if At(s, i, m) {
      assert s[i..i + |m|][0] == s[i];
    }
  }

  /** The first end marker in a block, whatever follows, is its own. */
  lemma BlockEnds(b: string, code: string, e: string, post: string)
    requires Fits(b, code, e)
    ensures Index(Block(b, code, e) + post, e) == |b| + |code|
    ensures AfterLine(Block(b, code, e) + post, |b| + |code| + |e|) == |Block(b, code, e)|
  {
    var s, k := Block(b, code, e) + post, |b| + |code|;
    assert s[k..k + |e|] == e;
    forall i: nat | i < k ensures !At(s, i, e) {
      if i == 0 {
        assert s[0..|e|] == b;
      } else {
        assert s[i] == if i < |b| then b[i] else code[i - |b|];
        StartsWithHash(s, e, i);
      }
    }
    IndexIs(s, e, k);
  }

  /** A marker behind a text without it, at offset `k` of what starts with a `#`. */
  lemma FirstBehind(pre: string, rest: string, m: string, k: nat)
    requires Marker(m) && Index(pre, m) == -1 && rest != "" && rest[0] == '#' && Index(rest, m) == k
    ensures Index(pre + rest, m) == |pre| + k
  {
    var s := pre + rest;
    forall i: nat | i < |pre| + k ensures !At(s, i, m) {
      if At(s, i, m) { Seam(pre, rest, m, i); }
    }
    assert s[|pre| + k..|pre| + k + |m|] == rest[k..k + |m|];
    IndexIs(s, m, |pre| + k);
  }

  lemma LineEndBehind(pre: string, rest: string, i: nat)
    ensures AfterLine(pre + rest, |pre| + i) == |pre| + AfterLine(rest, i)
  {
  }

  /** Where the markers are in a profile that ends up as before + block + after. */
  lemma BlockFound(pre: string, b: string, code: string, e: string, post: string)
    requires Fits(b, code, e)
    requires Index(pre, b) == -1 && Index(pre, e) == -1
    ensures var s := pre + (Block(b, code, e) + post);
            && Index(s, b) == |pre| && Index(s, e) == |pre| + |b| + |code|
            && AfterLine(s, |pre| + |b| + |code| + |e|) == |pre| + |Block(b, code, e)|
  {
    var rest := Block(b, code, e) + post;
    BlockBegins(b, code, e, post);
    BlockEnds(b, code, e, post);
    IndexIs(rest, b, 0);
    FirstBehind(pre, rest, b, 0);
    FirstBehind(pre, rest, e, |b| + |code|);
    LineEndBehind(pre, rest, |b| + |code| + |e|);
  }

  lemma Stable(pre: string, b: string, code: string, e: string, post: string)
    requires Fits(b, code, e) && Index(pre, b) == -1 && Index(pre, e) == -1
    ensures var s := pre + (Block(b, code, e) + post); Updated(s, b, e, Block(b, code, e)) == s
  {
    var block := Block(b, code, e);
    var s := pre + (block + post);
    BlockFound(pre, b, code, e, post);
    assert s[..|pre|] == pre && s[|pre| + |block|..] == post;
    assert pre + block + post == s;
  }

  /** Up to the first of the markers there is none. */
  lemma NoneBefore(s: string, m: string, k: nat)
    requires m != "" && k <= |s| && (Index(s, m) == -1 || k <= Index(s, m))
    ensures Index(s[..k], m) == -1
  {
    forall i: nat ensures !At(s[..k], i, m) {
      if At(s[..k], i, m) {
        assert s[i..i + |m|] == s[..k][i..i + |m|];
        assert At(s, i, m);
      }
    }
  }

  lemma LineBreakIndex(s: string, m: string)
    requires Marker(m)
    ensures Index(s + "\n", m) == Index(s, m)
  {
    forall i: nat ensures At(s + "\n", i, m) <==> At(s, i, m) {
      if At(s + "\n", i, m) { LineBreakSeam(s, m, i); }
      if At(s, i, m) { assert (s + "\n")[i..i + |m|] == s[i..i + |m|]; }
    }
    if Index(s, m) != -1 {
      IndexIs(s + "\n", m, Index(s, m));
    }
  }

  /** What is in front of an appended block. */
  function Front(s: string): string {
    Ended(s) + "\n"
  }

  lemma FrontIndex(s: string, m: string)
    requires Marker(m)
    ensures Index(Front(s), m) == Index(s, m)
  {
    LineBreakIndex(s, m);
    LineBreakIndex(Ended(s), m);
  }

  /** Appending a block does not change where the first marker is, if there was one. */
  lemma FirstStays(x: string, y: string, m: string)
    requires Marker(m) && y != "" && y[0] == '#' && Index(x, m) != -1
    ensures Index(x + y, m) == Index(x, m)
  {
    var k := Index(x, m);
    assert (x + y)[k..k + |m|] == x[k..k + |m|];
    forall i: nat | i < k ensures !At(x + y, i, m) {
      if At(x + y, i, m) { Seam(x, y, m, i); }
    }
    IndexIs(x + y, m, k);
  }

  // ----- idempotence -----

  /** Either both markers in order, or none at all. */
  predicate Tidy(s: string, b: string, e: string) {
    s == "" || HasBlock(s, b, e) || (Index(s, b) == -1 && Index(s, e) == -1)
  }

  lemma TidyIdempotent(s: string, b: string, code: string, e: string)
    requires Fits(b, code, e) && Tidy(s, b, e)
    ensures var block := Block(b, code, e); Updated(Updated(s, b, e, block), b, e, block) == Updated(s, b, e, block)
  {
    var block := Block(b, code, e);
    if s == "" {
      assert "" + (block + "") == block;
      Stable("", b, code, e, "");
    } else if HasBlock(s, b, e) {
      ReplacedIdempotent(s, b, code, e);
    } else {
      FrontIndex(s, b);
      FrontIndex(s, e);
      assert Updated(s, b, e, block) == Front(s) + (block + "");
      Stable(Front(s), b, code, e, "");
    }
  }

  lemma ReplacedIdempotent(s: string, b: string, code: string, e: string)
    requires Fits(b, code, e) && HasBlock(s, b, e)
    ensures var block := Block(b, code, e); Updated(Updated(s, b, e, block), b, e, block) == Updated(s, b, e, block)
  {
    var block, k := Block(b, code, e), Index(s, b);
    NoneBefore(s, b, k);
    NoneBefore(s, e, k);
    var post := s[AfterLine(s, Index(s, e) + |e|)..];
    assert Updated(s, b, e, block) == s[..k] + (block + post);
    Stable(s[..k], b, code, e, post);
  }

  /** A begin marker without an end marker: the second update throws away everything from
      that marker on. */
  lemma StrayBegin(s: string, b: string, code: string, e: string)
    requires Fits(b, code, e) && Index(s, b) != -1 && Index(s, e) == -1
    ensures var block := Block(b, code, e); Updated(Updated(s, b, e, block), b, e, block) == s[..Index(s, b)] + block
  {
    var block, k := Block(b, code, e), Index(s, b);
    assert s != "" && Updated(s, b, e, block) == Front(s) + block;
    FrontIndex(s, b);
    FrontIndex(s, e);
    assert Front(s)[..k] == s[..k];
    CutFromStray(Front(s), b, code, e);
  }

  lemma CutFromStray(x: string, b: string, code: string, e: string)
    requires Fits(b, code, e) && Index(x, b) != -1 && Index(x, e) == -1
    ensures var block := Block(b, code, e); Updated(x + block, b, e, block) == x[..Index(x, b)] + block
  {
    var block, k := Block(b, code, e), Index(x, b);
    var t := x + block;
    BlockBegins(b, code, e, "");
    assert block + "" == block;
    FirstStays(x, block, b);
    EndFound(x, b, code, e);
    assert t[|t|..] == "" && t[..k] == x[..k];
  }

  /** Where the end marker of an appended block is, when there is no other. */
  lemma EndFound(pre: string, b: string, code: string, e: string)
    requires Fits(b, code, e) && Index(pre, e) == -1
    ensures var t := pre + Block(b, code, e);
            Index(t, e) == |pre| + |b| + |code| && AfterLine(t, Index(t, e) + |e|) == |t|
  {
    var block := Block(b, code, e);
    assert block + "" == block;
    BlockBegins(b, code, e, "");
    BlockEnds(b, code, e, "");
    FirstBehind(pre, block, e, |b| + |code|);
    LineEndBehind(pre, block, |b| + |code| + |e|);
  }

  /** An end marker that comes first: every update appends one more block. */
  lemma StrayEnd(s: string, b: string, code: string, e: string)
    requires Fits(b, code, e) && Index(s, e) != -1 && (Index(s, b) == -1 || Index(s, e) < Index(s, b))
    ensures var block := Block(b, code, e);
            var t := Updated(s, b, e, block); t == Front(s) + block && Updated(t, b, e, block) == Front(t) + block
  {
    var block := Block(b, code, e);
    var t := Front(s) + block;
    assert s != "";
    FrontIndex(s, b);
    FrontIndex(s, e);
    BlockBegins(b, code, e, "");
    assert block + "" == block;
    FirstStays(Front(s), block, e);
    if Index(s, b) == -1 {
      forall i: nat | i <= Index(s, e) ensures !At(t, i, b) {
        if At(t, i, b) { Seam(Front(s), block, b, i); }
      }
      assert Index(t, b) == -1 || Index(t, b) > Index(t, e);
    } else {
      FirstStays(Front(s), block, b);
    }
  }

  /** Main result: updating twice is updating once exactly for a profile with neither
      marker, or with its first end marker behind its first begin marker. */
  lemma IdempotentIff(s: string, b: string, code: string, e: string)
    requires Fits(b, code, e)
    ensures var block := Block(b, code, e);
            Updated(Updated(s, b, e, block), b, e, block) == Updated(s, b, e, block) <==> Tidy(s, b, e)
  {
    var block := Block(b, code, e);
    var t := Updated(s, b, e, block);
    if Tidy(s, b, e) {
      TidyIdempotent(s, b, code, e);
    } else if Index(s, e) == -1 {
      StrayBegin(s, b, code, e);
      assert |t| == |Front(s)| + |block| && Index(s, b) < |s|;
    } else {
      StrayEnd(s, b, code, e);
      assert |Updated(t, b, e, block)| > |t|;
    }
  }

  /** What stands outside the block stays, byte for byte, in place. */
  lemma KeepsTheRest(s: string, b: string, code: string, e: string)
    requires Fits(b, code, e)
    ensures var block := Block(b, code, e);
            var t := Updated(s, b, e, block);
            && (!HasBlock(s, b, e) ==> s <= t && t[|t| - |block|..] == block)
            && (HasBlock(s, b, e) ==>
                  var start, after := Index(s, b), AfterLine(s, Index(s, e) + |e|);
                  && start + |b| <= after <= |s|
                  && t[..start] == s[..start] && t[start..start + |block|] == block && t[start + |block|..] == s[after..])
  {
    var block := Block(b, code, e);
    var t := Updated(s, b, e, block);
    if HasBlock(s, b, e) {
      var start, after := Index(s, b), AfterLine(s, Index(s, e) + |e|);
      Between(s[..start], block, s[after..]);
    } else {
      Between(Ended(s) + "\n", block, "");
    }
  }

  lemma Between(a: string, block: string, b: string)
    ensures var t := a + block + b;
            t[..|a|] == a && t[|a|..|a| + |block|] == block && t[|a| + |block|..] == b
  {
  }

  /** The generated blocks are of the kind these results need. */
  lemma MarkersFit(code: string)
    requires '#' !in code
    ensures Fits(BEGIN, code, END)
  {
    MarkersAreMarkers();
  }

  /** With the markers of the installer, whose blocks hold no other `#`: installing twice is
      installing once exactly for such a profile. */
  lemma InstallTwiceIff(s: string, code: string)
    requires '#' !in code
    ensures var block := Block(BEGIN, code, END);
            Updated(Updated(s, BEGIN, END, block), BEGIN, END, block) == Updated(s, BEGIN, END, block) <==> Tidy(s, BEGIN, END)
  {
    MarkersFit(code);
    IdempotentIff(s, BEGIN, code, END);
  }

  /** An end marker behind a begin marker is not enough: when another end marker comes first,
      every installation adds a block. */
  lemma EndComesFirst(e: string, b: string, code: string, rest: string)
    requires Fits(b, code, e)
    ensures var block := Block(b, code, e);
            Updated(Updated(e + rest, b, e, block), b, e, block) != Updated(e + rest, b, e, block)
  {
    var s := e + rest;
    assert s[0..|e|] == e;
    IndexIs(s, e, 0);
    assert !At(s, 0, b);
    IdempotentIff(s, b, code, e);
  }

  /** For instance in this profile. */
  lemma EndBehindBeginIsNotEnough(code: string)
    requires '#' !in code
    ensures var s, block := END + ("\n" + BEGIN + "\n" + END + "\n"), Block(BEGIN, code, END);
            Updated(Updated(s, BEGIN, END, block), BEGIN, END, block) != Updated(s, BEGIN, END, block)
  {
    MarkersFit(code);
    EndComesFirst(END, BEGIN, code, "\n" + BEGIN + "\n" + END + "\n");
  }
}
