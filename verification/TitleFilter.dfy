/** The terminal title filter of cmd/opspulse/ssh.go: an output stream in which
    OSC 0 and OSC 2 title sequences (ECMA-48 section 8.3.89, with the xterm
    parameters and BEL terminator) are dropped and bare line feeds become CR LF.

    `Step` is the byte-at-a-time automaton, `TitleFilterWriter` the bulk-scanning
    implementation proved to refine it, and `Visible` an independent look-ahead
    definition of what should be left of a complete stream. */
module TitleFilter {
  import opened Sequences
  import opened Bytes

  datatype State = Normal | Escape | OscHeader | InTitle | TitleEsc

  /** The carried state of the filter between two bytes. */
  datatype Config = Config(state: State, pending: seq<byte>, last: byte)

  datatype Outcome = Outcome(config: Config, out: seq<byte>)

  const INITIAL := Config(Normal, [], 0)

  // ----- carriage returns -----

  /** emitByte: one byte as written after the byte `last`. */
  function CrlfByte(last: byte, b: byte): seq<byte> {
    if b == LF && last != CR then [CR, b] else [b]
  }

  /** `s` as emitted after a byte `last`: each LF not already behind a CR gets one. */
  function Crlf(last: byte, s: seq<byte>): seq<byte>
    decreases |s|
  {
    if s == [] then [] else CrlfByte(last, s[0]) + Crlf(s[0], s[1..])
  }

  function LastOf(last: byte, s: seq<byte>): byte {
    if s == [] then last else s[|s| - 1]
  }

  lemma LastOfConcat(last: byte, a: seq<byte>, b: seq<byte>)
    ensures LastOf(last, a + b) == LastOf(LastOf(last, a), b)
  {
    if b == [] {
      assert a + b == a;
    }
  }

  lemma {:induction false} CrlfConcat(last: byte, a: seq<byte>, b: seq<byte>)
    ensures Crlf(last, a + b) == Crlf(last, a) + Crlf(LastOf(last, a), b)
    decreases |a|
  {
    if a == [] {
      assert a + b == b;
    } else {
      var rest := Crlf(LastOf(last, a), b);
      assert (a + b)[1..] == a[1..] + b;
      CrlfConcat(a[0], a[1..], b);
      assert LastOf(a[0], a[1..]) == LastOf(last, a);
      assert Crlf(last, a + b) == CrlfByte(last, a[0]) + (Crlf(a[0], a[1..]) + rest);
    }
  }

  // ----- the reference automaton -----

  function Emitting(c: Config, s: seq<byte>, next: State): Outcome {
    Outcome(Config(next, [], LastOf(c.last, s)), Crlf(c.last, s))
  }

  predicate TitleIntroducer(s: seq<byte>) {
    |s| == 4 && s[0] == ESC && s[1] == BRACKET && (s[2] == ZERO || s[2] == TWO) && s[3] == SEMICOLON
  }

  /** One input byte. */
  function Step(c: Config, b: byte): Outcome {
    match c.state
    case Normal =>
      if b == ESC then Outcome(Config(Escape, [ESC], c.last), [])
      else Outcome(Config(Normal, c.pending, b), Crlf(c.last, [b]))
    case Escape =>
      if b == BRACKET then Outcome(c.(state := OscHeader, pending := c.pending + [b]), [])
      else Emitting(c, c.pending + [b], Normal)
    case OscHeader =>
      var held := c.pending + [b];
      if TitleIntroducer(held) then Outcome(c.(state := InTitle, pending := []), [])
      else if |held| >= 4 || (|held| == 3 && b != ZERO && b != TWO) then Emitting(c, held, Normal)
      else Outcome(c.(pending := held), [])
    case InTitle =>
      Outcome(c.(state := if b == BEL then Normal else if b == ESC then TitleEsc else InTitle), [])
    case TitleEsc =>
      Outcome(c.(state := if b == BACKSLASH || b == BEL then Normal else InTitle), [])
  }

  function Run(c: Config, s: seq<byte>): Outcome
    decreases |s|
  {
    if s == [] then Outcome(c, [])
    else
      var first := Step(c, s[0]);
      var rest := Run(first.config, s[1..]);
      Outcome(rest.config, first.out + rest.out)
  }

  /** Everything written for a complete stream, the final `Flush` included. */
  function Transcript(c: Config, s: seq<byte>): seq<byte> {
    var r := Run(c, s);
    r.out + Crlf(r.config.last, r.config.pending)
  }

  lemma {:induction false} RunConcat(c: Config, a: seq<byte>, b: seq<byte>)
    ensures Run(c, a + b).config == Run(Run(c, a).config, b).config
    ensures Run(c, a + b).out == Run(c, a).out + Run(Run(c, a).config, b).out
    decreases |a|
  {
    if a == [] {
      assert a + b == b;
    } else {
      assert (a + b)[1..] == a[1..] + b;
      RunConcat(Step(c, a[0]).config, a[1..], b);
    }
  }

  lemma TranscriptConcat(c: Config, a: seq<byte>, b: seq<byte>)
    ensures Transcript(c, a + b) == Run(c, a).out + Transcript(Run(c, a).config, b)
  {
    RunConcat(c, a, b);
    var mid := Run(c, a);
    var end := Run(mid.config, b);
    Assoc(mid.out, end.out, Crlf(end.config.last, end.config.pending));
  }

  /** Two stretches emitted verbatim in a row. */
  lemma EmittedInARow(c: Config, a: seq<byte>, text: seq<byte>, b: seq<byte>)
    requires Run(c, a) == Emitting(c, text, Normal)
    requires Run(Run(c, a).config, b) == Emitting(Run(c, a).config, b, Normal)
    ensures Run(c, a + b) == Emitting(c, text + b, Normal)
  {
    RunConcat(c, a, b);
    CrlfConcat(c.last, text, b);
    LastOfConcat(c.last, text, b);
  }

  /** A stretch that is silent and leaves the state as it was might as well not be there. */
  lemma SilentMiddle(c: Config, u: seq<byte>, t: seq<byte>, v: seq<byte>)
    requires Run(Run(c, u).config, t) == Outcome(Run(c, u).config, [])
    ensures Transcript(c, u + t + v) == Transcript(c, u + v)
  {
    RunConcat(c, u, t);
    TranscriptConcat(c, u + t, v);
    TranscriptConcat(c, u, v);
  }

  /** Chunking is invisible: a stream cut into any chunks gives the output and the
      state of the stream in one piece. */
  function RunChunks(c: Config, chunks: seq<seq<byte>>): Outcome
    decreases |chunks|
  {
    if chunks == [] then Outcome(c, [])
    else
      var before := RunChunks(c, chunks[..|chunks| - 1]);
      var last := Run(before.config, chunks[|chunks| - 1]);
      Outcome(last.config, before.out + last.out)
  }

  lemma {:induction false} ChunkingInvisible(c: Config, chunks: seq<seq<byte>>)
    ensures RunChunks(c, chunks) == Run(c, Flatten(chunks))
    decreases |chunks|
  {
    if chunks != [] {
      var front := chunks[..|chunks| - 1];
      ChunkingInvisible(c, front);
      RunConcat(c, Flatten(front), chunks[|chunks| - 1]);
    }
  }

  // ----- the invariant of every reachable state -----

  /** The bytes that may be held back: a proper prefix of a title introducer. */
  predicate Held(h: seq<byte>) {
    && |h| <= 3
    && (|h| >= 1 ==> h[0] == ESC)
    && (|h| >= 2 ==> h[1] == BRACKET)
    && (|h| >= 3 ==> h[2] == ZERO || h[2] == TWO)
  }

  function Holding(h: seq<byte>, last: byte): Config {
    Config(if |h| == 0 then Normal else if |h| == 1 then Escape else OscHeader, h, last)
  }

  /** What `pending` holds in each state, before `Flush`: nothing in Normal, InTitle
      and TitleEsc, ESC in Escape, and ESC ] or ESC ] 0 or ESC ] 2 in OscHeader. */
  predicate Reachable(c: Config) {
    match c.state
    case InTitle => c.pending == []
    case TitleEsc => c.pending == []
    case _ => Held(c.pending) && c == Holding(c.pending, c.last)
  }

  lemma {:induction false} ReachablePreserved(c: Config, s: seq<byte>)
    requires Reachable(c)
    ensures Reachable(Run(c, s).config)
    decreases |s|
  {
    if s != [] {
      ReachablePreserved(Step(c, s[0]).config, s[1..]);
    }
  }

  // ----- runs over whole stretches -----

  /** Text in Normal, whatever `pending` holds. */
  lemma {:induction false} TextRun(c: Config, s: seq<byte>)
    requires c.state == Normal && ESC !in s
    ensures Run(c, s) == Outcome(c.(last := LastOf(c.last, s)), Crlf(c.last, s))
    decreases |s|
  {
    if s != [] {
      TextRun(c.(last := s[0]), s[1..]);
      assert s == [s[0]] + s[1..];
      CrlfConcat(c.last, [s[0]], s[1..]);
    }
  }

  /** Inside a title everything but BEL and ESC is silent. */
  lemma {:induction false} SilentRun(c: Config, s: seq<byte>)
    requires c.state == InTitle && ESC !in s && BEL !in s
    ensures Run(c, s) == Outcome(c, [])
    decreases |s|
  {
    if s != [] {
      SilentRun(c, s[1..]);
    }
  }

  // ----- the independent definition -----

  /** The input after the terminator of the title whose body starts `s`: BEL,
      ESC BACKSLASH (ST, ECMA-48 section 8.3.143) or ESC BEL; empty when the title never ends. */
  function AfterTitle(s: seq<byte>): (rest: seq<byte>)
    ensures |rest| <= |s|
  {
    if s == [] then []
    else if s[0] == BEL then s[1..]
    else if s[0] == ESC then
      if |s| < 2 then []
      else if s[1] == BACKSLASH || s[1] == BEL then s[2..]
      else AfterTitle(s[2..])
    else AfterTitle(s[1..])
  }

  /** The bytes of a complete stream that survive the filter. */
  function Visible(s: seq<byte>): seq<byte>
    decreases |s|
  {
    if s == [] then []
    else if s[0] != ESC then [s[0]] + Visible(s[1..])
    else if |s| >= 2 && s[1] != BRACKET then s[..2] + Visible(s[2..])
    else if |s| >= 3 && s[2] != ZERO && s[2] != TWO then s[..3] + Visible(s[3..])
    else if |s| < 4 then s
    else if s[3] == SEMICOLON then Visible(AfterTitle(s[4..]))
    else s[..4] + Visible(s[4..])
  }

  /** Peels the first byte off a transcript. */
  lemma TranscriptStep(c: Config, s: seq<byte>)
    requires s != []
    ensures Transcript(c, s) == Step(c, s[0]).out + Transcript(Step(c, s[0]).config, s[1..])
  {
    var first := Step(c, s[0]);
    var rest := Run(first.config, s[1..]);
    Assoc(first.out, rest.out, Crlf(rest.config.last, rest.config.pending));
  }

  lemma {:induction false} TitleSwallowed(last: byte, s: seq<byte>)
    ensures Transcript(Config(InTitle, [], last), s) == Transcript(Config(Normal, [], last), AfterTitle(s))
    decreases |s|
  {
    if s != [] {
      TranscriptStep(Config(InTitle, [], last), s);
      if s[0] == ESC {
        if |s| >= 2 {
          TranscriptStep(Config(TitleEsc, [], last), s[1..]);
          assert s[1..][1..] == s[2..];
          if s[1] != BACKSLASH && s[1] != BEL {
            TitleSwallowed(last, s[2..]);
          }
        }
      } else if s[0] != BEL {
        TitleSwallowed(last, s[1..]);
      }
    }
  }

  lemma RunOne(c: Config, b: byte)
    ensures Run(c, [b]) == Step(c, b)
  {
    assert [b][1..] == [];
    assert Step(c, b).out + [] == Step(c, b).out;
  }

  lemma {:induction false} HeldBack(last: byte, h: seq<byte>)
    requires Held(h)
    ensures Run(Config(Normal, [], last), h) == Outcome(Holding(h, last), [])
    decreases |h|
  {
    if h != [] {
      var front, b := h[..|h| - 1], h[|h| - 1];
      assert h == front + [b];
      HeldBack(last, front);
      RunConcat(Config(Normal, [], last), front, [b]);
      RunOne(Holding(front, last), b);
    }
  }

  /** One byte after a held-back header. */
  lemma AfterHeld(last: byte, h: seq<byte>, b: byte)
    requires Held(h)
    ensures Run(Config(Normal, [], last), h + [b]) == Step(Holding(h, last), b)
  {
    HeldBack(last, h);
    RunConcat(Config(Normal, [], last), h, [b]);
    RunOne(Holding(h, last), b);
  }

  /** The held bytes leave together: a rejected header is emitted verbatim and the
      automaton is back in Normal. */
  lemma HeaderRejected(last: byte, h: seq<byte>, b: byte)
    requires Held(h) && !Held(h + [b]) && !TitleIntroducer(h + [b])
    ensures Run(Config(Normal, [], last), h + [b]) == Emitting(Config(Normal, [], last), h + [b], Normal)
  {
    AfterHeld(last, h, b);
    if h == [] {
      assert h + [b] == [b];
    }
  }

  /** A title introducer is held back byte by byte and then dropped. */
  lemma IntroducerDropped(last: byte, s: seq<byte>)
    requires |s| >= 4 && TitleIntroducer(s[..4])
    ensures Run(Config(Normal, [], last), s[..4]) == Outcome(Config(InTitle, [], last), [])
    ensures Transcript(Config(Normal, [], last), s) == Transcript(Config(InTitle, [], last), s[4..])
  {
    assert s[..4] == s[..3] + [s[3]] && s == s[..4] + s[4..];
    assert s[..4][2] == s[2] && s[..4][0] == s[0] && s[..4][1] == s[1] && s[..4][3] == s[3];
    AfterHeld(last, s[..3], s[3]);
    TranscriptConcat(Config(Normal, [], last), s[..4], s[4..]);
  }

  lemma TitleDropped(last: byte, s: seq<byte>)
    requires |s| >= 4 && s[0] == ESC && s[1] == BRACKET && (s[2] == ZERO || s[2] == TWO) && s[3] == SEMICOLON
    ensures Transcript(Config(Normal, [], last), s) == Transcript(Config(Normal, [], last), AfterTitle(s[4..]))
  {
    assert s[..4] == [s[0], s[1], s[2], s[3]];
    IntroducerDropped(last, s);
    TitleSwallowed(last, s[4..]);
  }

  /** What is held back at the end leaves with `Flush`. */
  lemma HeldShown(last: byte, h: seq<byte>)
    requires Held(h)
    ensures Transcript(Config(Normal, [], last), h) == Crlf(last, h)
  {
    HeldBack(last, h);
    assert [] + Crlf(last, h) == Crlf(last, h);
  }

  /** Main result: filter plus `Flush` leave exactly the visible bytes, with line
      feeds turned into CR LF. */
  lemma {:induction false} TranscriptIsVisible(last: byte, s: seq<byte>)
    ensures Transcript(Config(Normal, [], last), s) == Crlf(last, Visible(s))
    decreases |s|, 1
  {
    if s == [] {
    } else if s[0] != ESC {
      assert s[..1] == [s[0]];
      Kept(last, s, 1);
    } else if |s| >= 2 && s[1] != BRACKET {
      Kept(last, s, 2);
    } else if |s| >= 3 && s[2] != ZERO && s[2] != TWO {
      Kept(last, s, 3);
    } else if |s| < 4 {
      HeldShown(last, s);
    } else if s[3] == SEMICOLON {
      TitleDropped(last, s);
      TranscriptIsVisible(last, AfterTitle(s[4..]));
    } else {
      Kept(last, s, 4);
    }
  }

  /** The first `n` bytes are no title introducer, nor can they be the start of one. */
  lemma {:induction false} Kept(last: byte, s: seq<byte>, n: nat)
    requires 0 < n <= |s| && Held(s[..n - 1]) && !Held(s[..n]) && !TitleIntroducer(s[..n])
    requires Visible(s) == s[..n] + Visible(s[n..])
    ensures Transcript(Config(Normal, [], last), s) == Crlf(last, Visible(s))
    decreases |s|, 0
  {
    var head, tail := s[..n], s[n..];
    assert s == head + tail && head == s[..n - 1] + [s[n - 1]];
    HeaderRejected(last, s[..n - 1], s[n - 1]);
    TranscriptConcat(Config(Normal, [], last), head, tail);
    TranscriptIsVisible(LastOf(last, head), tail);
    CrlfConcat(last, head, Visible(tail));
  }

  /** The filter started afresh. */
  lemma FilterMeaning(s: seq<byte>)
    ensures Transcript(INITIAL, s) == Crlf(0, Visible(s))
  {
    TranscriptIsVisible(0, s);
  }

  // ----- what the definition promises -----

  /** Every LF of `out` stands directly behind a CR. */
  predicate CarriageReturned(last: byte, out: seq<byte>) {
    forall i :: 0 <= i < |out| && out[i] == LF ==> Before(last, out, i) == CR
  }

  /** The byte written just before `out[i]`. */
  function Before(last: byte, out: seq<byte>, i: nat): byte
    requires i < |out|
  {
    if i == 0 then last else out[i - 1]
  }

  lemma {:induction false} CrlfReturned(last: byte, s: seq<byte>)
    ensures CarriageReturned(last, Crlf(last, s))
    decreases |s|
  {
    if s != [] {
      CrlfReturned(s[0], s[1..]);
      var head := CrlfByte(last, s[0]);
      var tail := Crlf(s[0], s[1..]);
      forall i | 0 <= i < |head + tail| && (head + tail)[i] == LF
        ensures Before(last, head + tail, i) == CR
      {
        if i >= |head| {
          assert tail[i - |head|] == LF;
        }
      }
    }
  }

  /** Nothing but CRs is added. */
  lemma {:induction false} CrlfOnlyAddsReturns(last: byte, s: seq<byte>)
    ensures Without(Crlf(last, s), CR) == Without(s, CR)
    decreases |s|
  {
    if s != [] {
      CrlfOnlyAddsReturns(s[0], s[1..]);
      var rest := Crlf(s[0], s[1..]);
      WithoutFirst(s[0], rest, CR);
      if s[0] == LF && last != CR {
        WithoutFirst(CR, [LF] + rest, CR);
        assert [CR, LF] + rest == [CR] + ([LF] + rest);
      }
    }
  }

  lemma WithoutFirst(b: byte, s: seq<byte>, x: byte)
    ensures Without([b] + s, x) == if b == x then Without(s, x) else [b] + Without(s, x)
  {
    assert ([b] + s)[1..] == s;
  }

  /** Text that is already CR LF is left alone, so filtering twice adds nothing. */
  lemma {:induction false} CrlfFixesReturned(last: byte, s: seq<byte>)
    requires CarriageReturned(last, s)
    ensures Crlf(last, s) == s
    decreases |s|
  {
    if s != [] {
      forall i | 0 <= i < |s[1..]| && s[1..][i] == LF
        ensures Before(s[0], s[1..], i) == CR
      {
        assert s[i + 1] == LF && Before(last, s, i + 1) == CR;
      }
      CrlfFixesReturned(s[0], s[1..]);
      assert s[0] == LF ==> Before(last, s, 0) == CR;
      assert s == [s[0]] + s[1..];
    }
  }

  lemma {:induction false} SubsequenceSkips(a: seq<byte>, b: seq<byte>, n: nat)
    requires n <= |b| && Subsequence(a, b[n..])
    ensures Subsequence(a, b)
  {
    if n > 0 {
      assert b[1..][n - 1..] == b[n..];
      SubsequenceSkips(a, b[1..], n - 1);
    }
  }

  lemma {:induction false} SubsequenceKeeps(p: seq<byte>, a: seq<byte>, b: seq<byte>)
    requires Subsequence(a, b)
    ensures Subsequence(p + a, p + b)
  {
    if p == [] {
      assert p + a == a && p + b == b;
    } else {
      SubsequenceKeeps(p[1..], a, b);
      assert (p + a)[1..] == p[1..] + a && (p + b)[1..] == p[1..] + b;
    }
  }

  lemma {:induction false} AfterTitleIsSuffix(s: seq<byte>)
    ensures AfterTitle(s) == s[|s| - |AfterTitle(s)|..]
    decreases |s|
  {
    if s != [] && s[0] == ESC && |s| >= 2 && s[1] != BACKSLASH && s[1] != BEL {
      AfterTitleIsSuffix(s[2..]);
    } else if s != [] && s[0] != ESC && s[0] != BEL {
      AfterTitleIsSuffix(s[1..]);
    }
  }

  /** The visible bytes are bytes of the input, in input order. */
  lemma {:induction false} VisibleIsSubsequence(s: seq<byte>)
    ensures Subsequence(Visible(s), s)
    decreases |s|
  {
    if s == [] {
    } else if s[0] == ESC && (|s| < 2 || s[1] == BRACKET) && (|s| < 3 || s[2] == ZERO || s[2] == TWO)
              && (|s| < 4 || s[3] == SEMICOLON) {
      if |s| < 4 {
        SubsequenceKeeps(s, [], []);
        assert s + [] == s;
      } else {
        var body := s[4..];
        VisibleIsSubsequence(AfterTitle(body));
        AfterTitleIsSuffix(body);
        SubsequenceSkips(Visible(s), body, |body| - |AfterTitle(body)|);
        SubsequenceSkips(Visible(s), s, 4);
      }
    } else {
      var n := if s[0] != ESC then 1 else if s[1] != BRACKET then 2
               else if s[2] != ZERO && s[2] != TWO then 3 else 4;
      VisibleIsSubsequence(s[n..]);
      SubsequenceKeeps(s[..n], Visible(s[n..]), s[n..]);
      assert s == s[..n] + s[n..];
      assert Visible(s) == s[..n] + Visible(s[n..]) by {
        if n == 1 { assert s[..1] == [s[0]]; }
      }
    }
  }

  /** For a whole session: every LF written, `Flush` included, is directly behind a
      CR, and without CRs the output is a subsequence of the input. */
  lemma SessionOutput(s: seq<byte>)
    ensures CarriageReturned(0, Transcript(INITIAL, s))
    ensures Without(Transcript(INITIAL, s), CR) == Without(Visible(s), CR) && Subsequence(Visible(s), s)
  {
    FilterMeaning(s);
    CrlfReturned(0, Visible(s));
    CrlfOnlyAddsReturns(0, Visible(s));
    VisibleIsSubsequence(s);
  }

  // ----- when a title is removed -----

  /** The rest of a title behind its introducer: it ends with its first terminator, where
      an ESC and the byte behind it count as one. */
  predicate Tail(s: seq<byte>) {
    s != [] &&
    if s[0] == BEL then |s| == 1
    else if s[0] == ESC then |s| >= 2 && if s[1] == BACKSLASH || s[1] == BEL then |s| == 2 else Tail(s[2..])
    else Tail(s[1..])
  }

  /** A title sequence. */
  function Title(kind: byte, tail: seq<byte>): seq<byte> {
    [ESC, BRACKET, kind, SEMICOLON] + tail
  }

  predicate IsTitle(kind: byte, tail: seq<byte>) {
    (kind == ZERO || kind == TWO) && Tail(tail)
  }

  lemma RunStep(c: Config, s: seq<byte>)
    requires s != [] && Step(c, s[0]).out == []
    ensures Run(c, s) == Run(Step(c, s[0]).config, s[1..])
  {
    assert [] + Run(Step(c, s[0]).config, s[1..]).out == Run(Step(c, s[0]).config, s[1..]).out;
  }

  lemma {:induction false} TailSilent(last: byte, s: seq<byte>)
    requires Tail(s)
    ensures Run(Config(InTitle, [], last), s) == Outcome(Config(Normal, [], last), [])
    decreases |s|
  {
    RunStep(Config(InTitle, [], last), s);
    if s[0] == ESC {
      RunStep(Config(TitleEsc, [], last), s[1..]);
      assert s[1..][1..] == s[2..];
      if s[1] != BACKSLASH && s[1] != BEL {
        TailSilent(last, s[2..]);
      }
    } else if s[0] != BEL {
      TailSilent(last, s[1..]);
    }
  }

  /** The four bytes of the introducer, with nothing held back in front of them. */
  lemma IntroducerFromSilence(c: Config, kind: byte)
    requires Reachable(c) && c.pending == [] && (kind == ZERO || kind == TWO)
    ensures Run(c, [ESC, BRACKET, kind, SEMICOLON]) == Outcome(Config(InTitle, [], c.last), [])
  {
    var head := [ESC, BRACKET, kind, SEMICOLON];
    var inside := Config(InTitle, [], c.last);
    if c.state == Normal {
      assert head[..4] == head;
      IntroducerDropped(c.last, head);
    } else {
      var c1 := Step(c, ESC).config;
      RunStep(c, head);
      RunStep(c1, head[1..]);
      assert head[1..][1..] == head[2..] == [kind, SEMICOLON];
      SilentRun(inside, [kind, SEMICOLON]);
    }
  }

  lemma TitleFromSilence(c: Config, kind: byte, tail: seq<byte>)
    requires Reachable(c) && c.pending == [] && IsTitle(kind, tail)
    ensures Run(c, Title(kind, tail)) == Outcome(Config(Normal, [], c.last), [])
  {
    IntroducerFromSilence(c, kind);
    TailSilent(c.last, tail);
    RunConcat(c, [ESC, BRACKET, kind, SEMICOLON], tail);
  }

  /** What a title turns into when its ESC is taken for the end of a held header. */
  lemma TitleBehindHeld(c: Config, kind: byte, tail: seq<byte>)
    requires Reachable(c) && c.pending != []
    ensures var rest := Run(Config(Normal, [], ESC), [BRACKET, kind, SEMICOLON] + tail);
            Run(c, Title(kind, tail)) == Outcome(rest.config, Crlf(c.last, c.pending + [ESC]) + rest.out)
  {
    var t, held := [BRACKET, kind, SEMICOLON] + tail, c.pending + [ESC];
    assert Title(kind, tail) == [ESC] + t;
    assert Step(c, ESC) == Emitting(c, held, Normal) by {
      assert !TitleIntroducer(held);
    }
    RunOne(c, ESC);
    RunConcat(c, [ESC], t);
  }

  /** Main result, for every title: it vanishes exactly when nothing is held back in front of
      it. Otherwise its ESC leaves with the held bytes, and the rest of it is filtered like
      any other text. */
  lemma TitleRemovedIff(c: Config, kind: byte, tail: seq<byte>)
    requires Reachable(c) && IsTitle(kind, tail)
    ensures var r, rest := Run(c, Title(kind, tail)), Run(Config(Normal, [], ESC), [BRACKET, kind, SEMICOLON] + tail);
            && (r.out == [] <==> c.pending == [])
            && (c.pending == [] ==> r.config == Config(Normal, [], c.last))
            && (c.pending != [] ==> r.config == rest.config && r.out == Crlf(c.last, c.pending + [ESC]) + rest.out)
  {
    if c.pending == [] {
      TitleFromSilence(c, kind, tail);
    } else {
      TitleBehindHeld(c, kind, tail);
      assert Crlf(c.last, c.pending + [ESC]) != [];
    }
  }

  predicate PlainTail(body: seq<byte>, end: seq<byte>) {
    ESC !in body && BEL !in body && (end == [BEL] || end == [ESC, BACKSLASH] || end == [ESC, BEL])
  }

  /** The end of a title read as ordinary text. */
  lemma EndShown(last: byte, end: seq<byte>)
    requires PlainTail([], end)
    ensures Run(Config(Normal, [], last), end) == Emitting(Config(Normal, [], last), end, Normal)
  {
    if end == [BEL] {
      RunOne(Config(Normal, [], last), BEL);
      assert [BEL][1..] == [];
    } else {
      assert end == [ESC] + [end[1]];
      HeaderRejected(last, [ESC], end[1]);
    }
  }

  lemma PlainShown(last: byte, text: seq<byte>, end: seq<byte>)
    requires ESC !in text && PlainTail([], end)
    ensures Run(Config(Normal, [], last), text + end) == Emitting(Config(Normal, [], last), text + end, Normal)
  {
    TextRun(Config(Normal, [], last), text);
    EndShown(LastOf(last, text), end);
    EmittedInARow(Config(Normal, [], last), text, text, end);
  }

  lemma EmittedBehind(c: Config, kind: byte, tail: seq<byte>, t: seq<byte>)
    requires Reachable(c) && c.pending != [] && t == [BRACKET, kind, SEMICOLON] + tail
    requires Run(Config(Normal, [], ESC), t) == Emitting(Config(Normal, [], ESC), t, Normal)
    ensures Run(c, Title(kind, tail)) == Emitting(c, (c.pending + [ESC]) + t, Normal)
  {
    var front := c.pending + [ESC];
    TitleBehindHeld(c, kind, tail);
    CrlfConcat(c.last, front, t);
    LastOfConcat(c.last, front, t);
    assert LastOf(c.last, front) == ESC;
  }

  lemma TitleSplit(pending: seq<byte>, kind: byte, tail: seq<byte>)
    ensures (pending + [ESC]) + ([BRACKET, kind, SEMICOLON] + tail) == pending + Title(kind, tail)
  {
  }

  /** A title without ESC in its body is then shown whole, together with the held bytes. */
  lemma TitleShown(c: Config, kind: byte, body: seq<byte>, end: seq<byte>)
    requires Reachable(c) && c.pending != [] && (kind == ZERO || kind == TWO) && PlainTail(body, end)
    ensures Run(c, Title(kind, body + end)) == Emitting(c, c.pending + Title(kind, body + end), Normal)
  {
    var head := [BRACKET, kind, SEMICOLON];
    Assoc(head, body, end);
    PlainShown(ESC, head + body, end);
    EmittedBehind(c, kind, body + end, head + (body + end));
    TitleSplit(c.pending, kind, body + end);
  }

  /** Between two stretches of a session a title leaves no trace at all, provided the
      first stretch ends in Normal. */
  lemma TitleInvisibleInSession(u: seq<byte>, kind: byte, tail: seq<byte>, v: seq<byte>)
    requires IsTitle(kind, tail) && Run(INITIAL, u).config.state == Normal
    ensures Transcript(INITIAL, u + Title(kind, tail) + v) == Transcript(INITIAL, u + v)
  {
    ReachablePreserved(INITIAL, u);
    TitleFromSilence(Run(INITIAL, u).config, kind, tail);
    SilentMiddle(INITIAL, u, Title(kind, tail), v);
  }

  /** A title in one line behind any held-back bytes comes out unfiltered. */
  lemma Leak(h: seq<byte>, kind: byte, body: seq<byte>, end: seq<byte>)
    requires Held(h) && h != [] && (kind == ZERO || kind == TWO) && PlainTail(body, end) && LF !in body
    ensures var t := Title(kind, body + end); Transcript(INITIAL, h + t) == h + t
  {
    var t := Title(kind, body + end);
    HeldBack(0, h);
    TranscriptConcat(INITIAL, h, t);
    TitleShown(Holding(h, 0), kind, body, end);
    NoLineFeed(h, kind, body, end);
    CrlfFixesReturned(0, h + t);
  }

  lemma NoLineFeed(h: seq<byte>, kind: byte, body: seq<byte>, end: seq<byte>)
    requires Held(h) && (kind == ZERO || kind == TWO) && PlainTail(body, end) && LF !in body
    ensures LF !in h + Title(kind, body + end)
  {
    assert LF !in h && LF !in end && LF !in [ESC, BRACKET, kind, SEMICOLON];
  }

  /** The two leaks of the automaton: a title directly behind a lone ESC, and a title
      whose ESC was the last byte of a rejected header, come out unfiltered. */
  lemma TitleLeaks()
    ensures var t := Title(ZERO, [0x78, BEL]);
            && IsTitle(ZERO, [0x78, BEL])
            && Transcript(INITIAL, [ESC] + t) == [ESC] + t && Transcript(INITIAL, [ESC, BRACKET] + t) == [ESC, BRACKET] + t
  {
    assert [0x78, BEL][1..] == [BEL] && [0x78] + [BEL] == [0x78, BEL];
    Leak([ESC], ZERO, [0x78], [BEL]);
    Leak([ESC, BRACKET], ZERO, [0x78], [BEL]);
  }

  // ----- the writer -----

  lemma CrlfMore(out: seq<byte>, last: byte, s: seq<byte>, b: byte)
    ensures out + Crlf(last, s + [b]) == out + Crlf(last, s) + CrlfByte(LastOf(last, s), b)
    ensures LastOf(last, s + [b]) == b
  {
    CrlfConcat(last, s, [b]);
    assert [b][1..] == [];
    assert Crlf(LastOf(last, s), [b]) == CrlfByte(LastOf(last, s), b) + [];
    Assoc(out, Crlf(last, s), CrlfByte(LastOf(last, s), b));
  }

  lemma EmittedTwice(out: seq<byte>, last: byte, s: seq<byte>, b: byte)
    ensures out + Crlf(last, s) + Crlf(LastOf(last, s), [b]) == out + Crlf(last, s + [b])
    ensures LastOf(LastOf(last, s), [b]) == LastOf(last, s + [b]) == b
  {
    CrlfConcat(last, s, [b]);
    Assoc(out, Crlf(last, s), Crlf(LastOf(last, s), [b]));
  }

  /** titleFilterWriter; `sink` is everything its underlying writer has received. */
  class TitleFilterWriter {
    var state: State
    var pending: seq<byte>
    var lastByte: byte
    var sink: seq<byte>

    constructor ()
      ensures Current() == INITIAL && sink == []
    {
      state, pending, lastByte, sink := Normal, [], 0, [];
    }

    function Current(): Config
      reads this
    {
      Config(state, pending, lastByte)
    }

    /** emitByte over a slice: appends to `out` and tracks the last byte. */
    method EmitBytes(out: seq<byte>, bs: seq<byte>) returns (result: seq<byte>)
      modifies this`lastByte
      ensures result == out + Crlf(old(lastByte), bs)
      ensures lastByte == LastOf(old(lastByte), bs)
    {
      result := out;
      for i := 0 to |bs|
        invariant result == out + Crlf(old(lastByte), bs[..i])
        invariant lastByte == LastOf(old(lastByte), bs[..i])
      {
        assert bs[..i + 1] == bs[..i] + [bs[i]];
        CrlfMore(out, old(lastByte), bs[..i], bs[i]);
        result := result + CrlfByte(lastByte, bs[i]);
        lastByte := bs[i];
      }
      assert bs[..|bs|] == bs;
    }

    /** The bulk form: whole stretches without control bytes are copied or skipped at
        once, yet output and state are those of the byte automaton. */
    method Write(p: seq<byte>) returns (n: nat)
      modifies this
      ensures n == |p|
      ensures Current() == Run(old(Current()), p).config
      ensures sink == old(sink) + Run(old(Current()), p).out
    {
      var out: seq<byte>, rest := [], p;
      ghost var start, done := Current(), [];
      while |rest| > 0
        invariant p == done + rest
        invariant Current() == Run(start, done).config && out == Run(start, done).out
        invariant sink == old(sink)
        decreases |rest|
      {
        ghost var soFar, before := Run(start, done), rest;
        out, rest := Consume(out, rest);
        ghost var eaten := before[..|before| - |rest|];
        RunConcat(start, done, eaten);
        assert before == eaten + rest;
        Assoc(done, eaten, rest);
        done := done + eaten;
      }
      assert done == p;
      sink := sink + out;
      return |p|;
    }

    /** One pass of the loop of Write: eats at least one byte of `p`. */
    method Consume(out: seq<byte>, p: seq<byte>) returns (result: seq<byte>, rest: seq<byte>)
      requires |p| > 0
      modifies this`state, this`pending, this`lastByte
      ensures |rest| < |p| && rest == p[|p| - |rest|..]
      ensures Current() == Run(old(Current()), p[..|p| - |rest|]).config
      ensures result == out + Run(old(Current()), p[..|p| - |rest|]).out
    {
      result, rest := out, p[1..];
      var b := p[0];
      ghost var c := Current();
      RunOne(c, b);
      assert p[..1] == [b];
      match state {
        case Normal => result, rest := ConsumeText(out, p);
        case Escape => result := ConsumeEscape(out, b);
        case OscHeader => result := ConsumeHeader(out, b);
        case InTitle => rest := SkipTitle(p);
        case TitleEsc => state := if b == BACKSLASH || b == BEL then Normal else InTitle;
      }
    }

    /** stateEscape: an OSC starts, or the escape and this byte go out. */
    method ConsumeEscape(out: seq<byte>, b: byte) returns (result: seq<byte>)
      requires state == Escape
      modifies this`state, this`pending, this`lastByte
      ensures Current() == Step(old(Current()), b).config && result == out + Step(old(Current()), b).out
    {
      result := out;
      if b == BRACKET {
        pending, state := pending + [BRACKET], OscHeader;
      } else {
        ghost var held, last := pending, lastByte;
        result := EmitBytes(out, pending);
        result := EmitBytes(result, [b]);
        pending, state := [], Normal;
        EmittedTwice(out, last, held, b);
      }
    }

    /** stateOSCHeader: the header is complete, rejected, or still open. */
    method ConsumeHeader(out: seq<byte>, b: byte) returns (result: seq<byte>)
      requires state == OscHeader
      modifies this`state, this`pending, this`lastByte
      ensures Current() == Step(old(Current()), b).config && result == out + Step(old(Current()), b).out
    {
      result, pending := out, pending + [b];
      if TitleIntroducer(pending) {
        pending, state := [], InTitle;
      } else if |pending| >= 4 || (|pending| == 3 && b != ZERO && b != TWO) {
        result := EmitBytes(out, pending);
        pending, state := [], Normal;
      }
    }

    /** stateNormal: everything before the next ESC is emitted in one go. */
    method ConsumeText(out: seq<byte>, p: seq<byte>) returns (result: seq<byte>, rest: seq<byte>)
      requires |p| > 0 && state == Normal
      modifies this`state, this`pending, this`lastByte
      ensures |rest| < |p| && rest == p[|p| - |rest|..]
      ensures Current() == Run(old(Current()), p[..|p| - |rest|]).config
      ensures result == out + Run(old(Current()), p[..|p| - |rest|]).out
    {
      ghost var c := Current();
      var idx := IndexAny(p, {ESC});
      if idx == -1 {
        result := EmitBytes(out, p);
        rest := [];
        TextRun(c, p);
        assert p[..|p|] == p;
      } else {
        result := EmitBytes(out, p[..idx]);
        pending, state, rest := [ESC], Escape, p[idx + 1..];
        TextRun(c, p[..idx]);
        assert p[..idx + 1] == p[..idx] + [ESC];
        RunConcat(c, p[..idx], [ESC]);
        RunOne(Run(c, p[..idx]).config, ESC);
      }
    }

    /** stateInTitle: everything before the next BEL or ESC is dropped in one go. */
    method SkipTitle(p: seq<byte>) returns (rest: seq<byte>)
      requires |p| > 0 && state == InTitle
      modifies this`state
      ensures |rest| < |p| && rest == p[|p| - |rest|..]
      ensures Run(old(Current()), p[..|p| - |rest|]) == Outcome(Current(), [])
    {
      ghost var c := Current();
      var idx := IndexAny(p, {BEL, ESC});
      if idx == -1 {
        rest := [];
        SilentRun(c, p);
        assert p[..|p|] == p;
      } else {
        var term := p[idx];
        rest := p[idx + 1..];
        state := if term == BEL then Normal else TitleEsc;
        SilentRun(c, p[..idx]);
        assert p[..idx + 1] == p[..idx] + [term];
        RunConcat(c, p[..idx], [term]);
        RunOne(c, term);
      }
    }

    /** Writes what is still held back; `state` is not reset. */
    method Flush()
      modifies this
      ensures Current() == Config(old(state), [], LastOf(old(lastByte), old(pending)))
      ensures sink == old(sink) + Crlf(old(lastByte), old(pending))
    {
      if |pending| > 0 {
        var out := EmitBytes([], pending);
        pending := [];
        sink := sink + out;
      }
    }
  }

  /** A session: any chunks through Write, then Flush. What reaches the terminal is
      the visible part of the stream with CR LF line ends, however it was cut. */
  method Session(chunks: seq<seq<byte>>) returns (output: seq<byte>)
    ensures output == Crlf(0, Visible(Flatten(chunks)))
  {
    var f := new TitleFilterWriter();
    for i := 0 to |chunks|
      invariant f.Current() == RunChunks(INITIAL, chunks[..i]).config
      invariant f.sink == RunChunks(INITIAL, chunks[..i]).out
    {
      var _ := f.Write(chunks[i]);
      assert chunks[..i + 1][..i] == chunks[..i];
    }
    f.Flush();
    output := f.sink;
    assert chunks[..|chunks|] == chunks;
    ChunkingInvisible(INITIAL, chunks);
    FilterMeaning(Flatten(chunks));
  }
}
