/** The two line-prefix writers: PrefixedWriter (internal/executor/logger.go), which
    slices its input at line feeds, and LinePrefixWriter (cmd/opspulse/exec.go), which
    goes byte by byte. Both buffer an unfinished line across calls. */
module LineWriters {
  import opened Sequences
  import opened Bytes

  /** The lines completed so far, each with its LF, and the unfinished line. */
  datatype Lines = Lines(done: seq<seq<byte>>, rest: seq<byte>)

  const EMPTY := Lines([], [])

  function FeedByte(l: Lines, b: byte): Lines {
    if b == LF then Lines(l.done + [l.rest + [LF]], []) else Lines(l.done, l.rest + [b])
  }

  function Feed(l: Lines, s: seq<byte>): Lines
    decreases |s|
  {
    if s == [] then l else FeedByte(Feed(l, s[..|s| - 1]), s[|s| - 1])
  }

  /** Flush of LinePrefixWriter: an unfinished line is closed with a line feed. */
  function Close(l: Lines): Lines {
    if l.rest == [] then l else Lines(l.done + [l.rest + [LF]], [])
  }

  /** Flush of PrefixedWriter: an unfinished line goes out as it is. */
  function Drain(l: Lines): Lines {
    if l.rest == [] then l else Lines(l.done + [l.rest], [])
  }

  lemma {:induction false} FeedConcat(l: Lines, a: seq<byte>, b: seq<byte>)
    ensures Feed(l, a + b) == Feed(Feed(l, a), b)
    decreases |b|
  {
    if b == [] {
      assert a + b == a;
    } else {
      assert (a + b)[..|a + b| - 1] == a + b[..|b| - 1];
      FeedConcat(l, a, b[..|b| - 1]);
    }
  }

  lemma {:induction false} FeedPlain(l: Lines, s: seq<byte>)
    requires LF !in s
    ensures Feed(l, s) == Lines(l.done, l.rest + s)
    decreases |s|
  {
    if s == [] {
      assert l.rest + s == l.rest;
    } else {
      FeedPlain(l, s[..|s| - 1]);
      assert l.rest + s[..|s| - 1] + [s[|s| - 1]] == l.rest + s;
    }
  }

  /** A complete line: exactly one LF, at its end. */
  predicate IsLine(s: seq<byte>) {
    s != [] && s[|s| - 1] == LF && LF !in s[..|s| - 1]
  }

  lemma FeedLine(l: Lines, line: seq<byte>)
    requires IsLine(line)
    ensures Feed(l, line) == Lines(l.done + [l.rest + line], [])
  {
    var body := line[..|line| - 1];
    FeedPlain(l, body);
    assert l.rest + body + [LF] == l.rest + line by {
      assert line == body + [LF];
    }
  }

  // ----- what splitting means -----

  predicate WellSplit(l: Lines) {
    LF !in l.rest && forall k :: 0 <= k < |l.done| ==> IsLine(l.done[k])
  }

  /** The bytes a split stands for. */
  function Text(l: Lines): seq<byte> {
    Flatten(l.done) + l.rest
  }

  lemma TextOfByte(l: Lines, b: byte)
    requires WellSplit(l)
    ensures WellSplit(FeedByte(l, b)) && Text(FeedByte(l, b)) == Text(l) + [b]
  {
    Assoc(Flatten(l.done), l.rest, [b]);
    if b == LF {
      var line := l.rest + [LF];
      assert line[..|line| - 1] == l.rest;
      FlattenMore(l.done, line);
    }
  }

  /** Nothing is lost or reordered, and every line ends where its LF stands. */
  lemma {:induction false} FeedSound(l: Lines, s: seq<byte>)
    requires WellSplit(l)
    ensures WellSplit(Feed(l, s)) && Text(Feed(l, s)) == Text(l) + s
    decreases |s|
  {
    if s != [] {
      var front, b := s[..|s| - 1], s[|s| - 1];
      FeedSound(l, front);
      TextOfByte(Feed(l, front), b);
      Assoc(Text(l), front, [b]);
      assert s == front + [b];
    }
  }

  lemma {:induction false} LinesSplit(done: seq<seq<byte>>)
    requires WellSplit(Lines(done, []))
    ensures Feed(EMPTY, Flatten(done)) == Lines(done, [])
    decreases |done|
  {
    if done != [] {
      var front, line := done[..|done| - 1], done[|done| - 1];
      assert forall k :: 0 <= k < |front| ==> front[k] == done[k];
      LinesSplit(front);
      OneLineMore(front, line);
      assert front + [line] == done;
    }
  }

  lemma OneLineMore(front: seq<seq<byte>>, line: seq<byte>)
    requires Feed(EMPTY, Flatten(front)) == Lines(front, []) && IsLine(line)
    ensures Feed(EMPTY, Flatten(front) + line) == Lines(front + [line], [])
  {
    FeedConcat(EMPTY, Flatten(front), line);
    FeedLine(Lines(front, []), line);
    assert [] + line == line;
  }

  /** The split is the only one of its kind: any division of a stream into complete
      lines and an LF-free remainder is the one the writers compute. */
  lemma SplitUnique(l: Lines)
    requires WellSplit(l)
    ensures Feed(EMPTY, Text(l)) == l
  {
    LinesSplit(l.done);
    FeedConcat(EMPTY, Flatten(l.done), l.rest);
    FeedPlain(Lines(l.done, []), l.rest);
    assert [] + l.rest == l.rest;
  }

  function Tagged(prefix: seq<byte>, lines: seq<seq<byte>>): (t: seq<seq<byte>>)
    ensures |t| == |lines| && forall k :: 0 <= k < |t| ==> t[k] == prefix + lines[k]
  {
    seq(|lines|, k requires 0 <= k < |lines| => prefix + lines[k])
  }

  lemma TaggedAppend(prefix: seq<byte>, lines: seq<seq<byte>>, x: seq<byte>)
    ensures Tagged(prefix, lines + [x]) == Tagged(prefix, lines) + [prefix + x]
  {
  }

  // ----- PrefixedWriter -----

  /** `writes` is the sequence of calls its underlying writer has received. The ghost
      fields name what was settled before the last Flush and what was fed since. */
  class PrefixedWriter {
    const prefix: seq<byte>
    var buf: seq<byte>
    var writes: seq<seq<byte>>
    ghost var settled: seq<seq<byte>>
    ghost var fed: seq<byte>

    ghost predicate Valid()
      reads this
    {
      && writes == settled + Tagged(prefix, Feed(EMPTY, fed).done)
      && buf == Feed(EMPTY, fed).rest
    }

    constructor (prefix: seq<byte>)
      ensures Valid() && this.prefix == prefix
      ensures writes == settled == [] && fed == []
    {
      this.prefix := prefix;
      buf, writes, settled, fed := [], [], [], [];
    }

    /** Whatever was written before, the lines out are the lines of the whole stream. */
    method Write(p: seq<byte>) returns (n: nat)
      requires Valid()
      modifies this
      ensures Valid() && n == |p|
      ensures fed == old(fed) + p && settled == old(settled)
    {
      var rest := p;
      ghost var eaten := [];
      while |rest| > 0
        invariant p == eaten + rest
        invariant Valid() && settled == old(settled) && fed == old(fed) + eaten
        decreases |rest|
      {
        ghost var line;
        line, rest := Advance(rest);
        Assoc(old(fed), eaten, line);
        Assoc(eaten, line, rest);
        eaten := eaten + line;
      }
      assert eaten == p;
      return |p|;
    }

    /** One pass of the loop: a whole line is written, or what has no LF is kept. */
    method Advance(p: seq<byte>) returns (ghost eaten: seq<byte>, rest: seq<byte>)
      requires Valid() && |p| > 0
      modifies this
      ensures Valid() && settled == old(settled) && fed == old(fed) + eaten
      ensures p == eaten + rest && |rest| < |p|
    {
      var idx := IndexAny(p, {LF});
      if idx >= 0 {
        eaten, rest := p[..idx + 1], p[idx + 1..];
        WriteLine(p[..idx + 1]);
      } else {
        eaten, rest := p, [];
        Keep(p);
      }
    }

    method WriteLine(line: seq<byte>)
      requires Valid() && IsLine(line)
      modifies this
      ensures Valid() && fed == old(fed) + line && settled == old(settled)
    {
      ghost var l := Feed(EMPTY, fed);
      FeedLine(l, line);
      FeedConcat(EMPTY, fed, line);
      TaggedAppend(prefix, l.done, l.rest + line);
      if |buf| > 0 {
        buf := buf + line;
        writes := writes + [prefix + buf];
        buf := [];
      } else {
        assert l.rest + line == line;
        writes := writes + [prefix + line];
      }
      fed := fed + line;
    }

    method Keep(text: seq<byte>)
      requires Valid() && LF !in text
      modifies this
      ensures Valid() && fed == old(fed) + text && settled == old(settled)
    {
      FeedPlain(Feed(EMPTY, fed), text);
      FeedConcat(EMPTY, fed, text);
      buf := buf + text;
      fed := fed + text;
    }

    /** The unfinished line goes out with the prefix and without a line feed. */
    method Flush()
      requires Valid()
      modifies this
      ensures Valid() && buf == [] && fed == []
      ensures writes == old(settled) + Tagged(prefix, Drain(Feed(EMPTY, old(fed))).done)
    {
      ghost var l := Feed(EMPTY, fed);
      if |buf| > 0 {
        TaggedAppend(prefix, l.done, l.rest);
        writes := writes + [prefix + buf];
        buf := [];
      }
      settled, fed := writes, [];
    }
  }

  /** A session of PrefixedWriter: the bytes out depend on the stream only, not on how
      it was cut into writes. */
  method PrefixedSession(prefix: seq<byte>, chunks: seq<seq<byte>>) returns (output: seq<seq<byte>>)
    ensures output == Tagged(prefix, Drain(Feed(EMPTY, Flatten(chunks))).done)
  {
    var w := new PrefixedWriter(prefix);
    for i := 0 to |chunks|
      invariant w.Valid() && w.fed == Flatten(chunks[..i]) && w.settled == []
    {
      assert chunks[..i + 1] == chunks[..i] + [chunks[i]];
      FlattenMore(chunks[..i], chunks[i]);
      var _ := w.Write(chunks[i]);
    }
    assert chunks[..|chunks|] == chunks;
    w.Flush();
    output := w.writes;
  }

  // ----- LinePrefixWriter -----

  /** One line on the shared console, with the index of the writer that put it there. */
  datatype Record = Record(writer: nat, ticket: nat, text: seq<byte>)

  /** The formatted prefix: "[name] ", wrapped in a colour and a reset when there is one. */
  function LinePrefix(name: seq<byte>, color: seq<byte>): seq<byte> {
    if color != []
    then color + [0x5b] + name + [BRACKET] + [ESC, 0x5b, 0x30, 0x6d] + [0x20]
    else [0x5b] + name + [BRACKET] + [0x20]
  }

  /** The console and its mutex. */
  class Console {
    var lines: seq<seq<byte>>

    constructor ()
      ensures lines == []
    {
      lines := [];
    }
  }

  class LinePrefixWriter {
    const prefix: seq<byte>
    const color: seq<byte>
    const console: Console
    var buf: seq<byte>

    /** The buffer never holds a line feed between calls. */
    predicate Valid()
      reads this
    {
      LF !in buf
    }

    constructor (prefix: seq<byte>, color: seq<byte>, console: Console)
      ensures Valid()
      ensures this.prefix == prefix && this.color == color && this.console == console && buf == []
    {
      this.prefix, this.color, this.console := prefix, color, console;
      buf := [];
    }

    method WriteFormattedLine(line: seq<byte>)
      modifies console
      ensures console.lines == old(console.lines) + [LinePrefix(prefix, color) + line]
    {
      console.lines := console.lines + [LinePrefix(prefix, color) + line];
    }

    /** One call, under the mutex: byte by byte, a line goes out as soon as it is whole. */
    method Write(p: seq<byte>) returns (n: nat)
      requires Valid()
      modifies this, console
      ensures Valid() && n == |p|
      ensures var l := Feed(Lines([], old(buf)), p);
              buf == l.rest && console.lines == old(console.lines) + Tagged(LinePrefix(prefix, color), l.done)
    {
      ghost var tag := LinePrefix(prefix, color);
      for i := 0 to |p|
        invariant Valid()
        invariant buf == Feed(Lines([], old(buf)), p[..i]).rest
        invariant console.lines == old(console.lines) + Tagged(tag, Feed(Lines([], old(buf)), p[..i]).done)
      {
        ghost var l := Feed(Lines([], old(buf)), p[..i]);
        assert p[..i + 1][..i] == p[..i];
        buf := buf + [p[i]];
        if p[i] == LF {
          var line := buf;
          buf := [];
          TaggedAppend(tag, l.done, line);
          WriteFormattedLine(line);
        }
      }
      assert p[..|p|] == p;
      return |p|;
    }

    method Flush()
      requires Valid()
      modifies this, console
      ensures buf == []
      ensures console.lines == old(console.lines) + Tagged(LinePrefix(prefix, color), Close(Lines([], old(buf))).done)
    {
      if |buf| > 0 {
        var line := buf;
        buf := [];
        if line[|line| - 1] != LF {
          line := line + [LF];
        }
        WriteFormattedLine(line);
      }
    }
  }

  /** Lines completed earlier do not matter for the later ones. */
  lemma {:induction false} FeedShift(done: seq<seq<byte>>, rest: seq<byte>, s: seq<byte>)
    ensures Feed(Lines(done, rest), s) == Lines(done + Feed(Lines([], rest), s).done, Feed(Lines([], rest), s).rest)
    decreases |s|
  {
    if s == [] {
      assert done + [] == done;
    } else {
      var front, b := s[..|s| - 1], s[|s| - 1];
      FeedShift(done, rest, front);
      var l := Feed(Lines([], rest), front);
      Assoc(done, l.done, [l.rest + [LF]]);
    }
  }

  lemma TaggedJoin(prefix: seq<byte>, a: seq<seq<byte>>, b: seq<seq<byte>>)
    ensures Tagged(prefix, a + b) == Tagged(prefix, a) + Tagged(prefix, b)
  {
  }

  lemma FeedMore(l: Lines, tag: seq<byte>, p: seq<byte>)
    ensures var more := Feed(Lines([], l.rest), p);
            && Feed(l, p).rest == more.rest
            && Tagged(tag, Feed(l, p).done) == Tagged(tag, l.done) + Tagged(tag, more.done)
  {
    FeedShift(l.done, l.rest, p);
    TaggedJoin(tag, l.done, Feed(Lines([], l.rest), p).done);
  }

  lemma CloseMore(l: Lines, tag: seq<byte>)
    ensures Tagged(tag, Close(l).done) == Tagged(tag, l.done) + Tagged(tag, Close(Lines([], l.rest)).done)
  {
    TaggedJoin(tag, l.done, Close(Lines([], l.rest)).done);
    if l.rest == [] {
      assert Tagged(tag, l.done) + Tagged(tag, []) == Tagged(tag, l.done);
    }
  }

  /** A session of LinePrefixWriter alone on a console: here too the lines depend on the
      stream only, and the last one is closed. */
  method LinePrefixSession(prefix: seq<byte>, color: seq<byte>, chunks: seq<seq<byte>>) returns (output: seq<seq<byte>>)
    ensures output == Tagged(LinePrefix(prefix, color), Close(Feed(EMPTY, Flatten(chunks))).done)
  {
    var console := new Console();
    var w := new LinePrefixWriter(prefix, color, console);
    ghost var tag := LinePrefix(prefix, color);
    for i := 0 to |chunks|
      invariant w.Valid() && w.buf == Feed(EMPTY, Flatten(chunks[..i])).rest
      invariant console.lines == Tagged(tag, Feed(EMPTY, Flatten(chunks[..i])).done)
    {
      assert chunks[..i + 1] == chunks[..i] + [chunks[i]];
      FlattenMore(chunks[..i], chunks[i]);
      FeedConcat(EMPTY, Flatten(chunks[..i]), chunks[i]);
      FeedMore(Feed(EMPTY, Flatten(chunks[..i])), tag, chunks[i]);
      var _ := w.Write(chunks[i]);
    }
    assert chunks[..|chunks|] == chunks;
    CloseMore(Feed(EMPTY, Flatten(chunks)), tag);
    w.Flush();
    output := console.lines;
  }
}
