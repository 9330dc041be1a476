/** Several LinePrefixWriters (cmd/opspulse/exec.go) on one console and one mutex, as
    a transition system. A call takes the lock, handles one byte a step, and releases
    the lock; other writers may run between any two steps. */
module SharedConsole {
  import opened Bytes
  import opened LineWriters

  datatype Call = WriteCall(p: seq<byte>) | FlushCall

  /** What a writer still has to do, and its buffer. */
  datatype Writer = Writer(prefix: seq<byte>, buf: seq<byte>, todo: seq<Call>)

  /** The call inside the critical section. */
  datatype Section = Free | Held(owner: nat, call: Call)

  datatype System = System(writers: seq<Writer>, mutex: Section, console: seq<Record>, tickets: nat)

  /** A line goes out of writer `i` when `b` ends it. */
  function ByteBy(s: System, i: nat, b: byte, rest: seq<byte>): System
    requires i < |s.writers|
  {
    var w := s.writers[i];
    var l := FeedByte(Lines([], w.buf), b);
    s.(writers := s.writers[i := w.(buf := l.rest)], mutex := Held(i, WriteCall(rest)),
       console := s.console + Records(i, s.tickets, w.prefix, l.done))
  }

  function FlushBy(s: System, i: nat): System
    requires i < |s.writers|
  {
    var w := s.writers[i];
    var l := Close(Lines([], w.buf));
    s.(writers := s.writers[i := w.(buf := l.rest)], mutex := Held(i, WriteCall([])),
       console := s.console + Records(i, s.tickets, w.prefix, l.done))
  }

  function Records(i: nat, ticket: nat, prefix: seq<byte>, lines: seq<seq<byte>>): seq<Record> {
    seq(|lines|, k requires 0 <= k < |lines| => Record(i, ticket, prefix + lines[k]))
  }

  /** One atomic step of writer `i`. */
  predicate StepOf(s: System, i: nat, next: System) {
    && i < |s.writers|
    && match s.mutex
       case Free =>
         && s.writers[i].todo != []
         && next == s.(writers := s.writers[i := s.writers[i].(todo := s.writers[i].todo[1..])],
                       mutex := Held(i, s.writers[i].todo[0]), tickets := s.tickets + 1)
       case Held(owner, WriteCall(p)) =>
         && owner == i
         && next == if p == [] then s.(mutex := Free) else ByteBy(s, i, p[0], p[1..])
       case Held(owner, FlushCall) =>
         && owner == i
         && next == FlushBy(s, i)
  }

  ghost predicate Next(s: System, next: System) {
    exists i: nat :: StepOf(s, i, next)
  }

  predicate Start(s: System) {
    s.mutex == Free && s.console == [] && s.tickets == 0 && forall i :: 0 <= i < |s.writers| ==> s.writers[i].buf == []
  }

  ghost predicate IsRun(run: seq<System>) {
    && run != [] && Start(run[0])
    && forall k :: 0 <= k < |run| - 1 ==> Next(run[k], run[k + 1])
  }

  // ----- one writer on its own -----

  /** The effect of whole calls, one after the other. */
  function After(l: Lines, calls: seq<Call>): Lines
    decreases |calls|
  {
    if calls == [] then l else After(Apply(l, calls[0]), calls[1..])
  }

  function Apply(l: Lines, call: Call): Lines {
    match call
    case WriteCall(p) => Feed(l, p)
    case FlushCall => Close(l)
  }

  /** The texts writer `i` has put on the console, in console order. */
  function Projection(console: seq<Record>, i: nat): seq<seq<byte>>
    decreases |console|
  {
    if console == [] then []
    else
      var last := console[|console| - 1];
      Projection(console[..|console| - 1], i) + if last.writer == i then [last.text] else []
  }

  lemma ProjectionAppend(console: seq<Record>, r: Record, i: nat)
    ensures Projection(console + [r], i) == Projection(console, i) + if r.writer == i then [r.text] else []
  {
    assert (console + [r])[..|console|] == console;
  }

  /** The calls of writer `i` that are not finished, the current one included. */
  function Unfinished(s: System, i: nat): seq<Call>
    requires i < |s.writers|
  {
    (if s.mutex.Held? && s.mutex.owner == i then [s.mutex.call] else []) + s.writers[i].todo
  }

  /** The lines writer `i` would end up with if it ran on undisturbed from here. */
  function Outlook(s: System, i: nat, soFar: seq<seq<byte>>): Lines
    requires i < |s.writers|
  {
    After(Lines(soFar, s.writers[i].buf), Unfinished(s, i))
  }

  /** What is on the console of writer `i` is exactly its completed lines `done` with the
      prefix it has had from the start, and the rest of its program leads where the program
      run alone would have led. */
  predicate FaithfulTo(s: System, start: System, i: nat, done: seq<seq<byte>>)
    requires i < |s.writers| == |start.writers|
  {
    && s.writers[i].prefix == start.writers[i].prefix
    && Projection(s.console, i) == Tagged(start.writers[i].prefix, done)
    && Outlook(s, i, done) == After(EMPTY, start.writers[i].todo)
  }

  /** The same of every writer; `soFar[i]` are the completed lines of writer `i`. */
  predicate Faithful(s: System, start: System, soFar: seq<seq<seq<byte>>>) {
    && |soFar| == |s.writers| == |start.writers|
    && (s.mutex.Held? ==> s.mutex.owner < |s.writers|)
    && forall i :: 0 <= i < |s.writers| ==> FaithfulTo(s, start, i, soFar[i])
  }

  lemma {:induction false} FeedFirst(l: Lines, p: seq<byte>)
    requires p != []
    ensures Feed(l, p) == Feed(FeedByte(l, p[0]), p[1..])
  {
    assert p == [p[0]] + p[1..];
    FeedConcat(l, [p[0]], p[1..]);
    assert [p[0]][..0] == [];
  }

  /** At most one line leaves per step. */
  lemma OneLine(soFar: seq<seq<byte>>, buf: seq<byte>, b: byte)
    ensures var l, m := FeedByte(Lines([], buf), b), FeedByte(Lines(soFar, buf), b);
            |l.done| <= 1 && m == Lines(soFar + l.done, l.rest)
    ensures var l, m := Close(Lines([], buf)), Close(Lines(soFar, buf));
            |l.done| <= 1 && m == Lines(soFar + l.done, l.rest)
  {
    assert soFar + [] == soFar;
  }

  /** What the lines put out by writer `i` do to the projection on writer `j`. */
  lemma Emission(console: seq<Record>, i: nat, ticket: nat, prefix: seq<byte>, lines: seq<seq<byte>>, j: nat)
    requires |lines| <= 1
    ensures Projection(console + Records(i, ticket, prefix, lines), j)
         == Projection(console, j) + if j == i then Tagged(prefix, lines) else []
  {
    var added := Records(i, ticket, prefix, lines);
    if lines == [] {
      assert added == [] && console + added == console;
    } else {
      var r := Record(i, ticket, prefix + lines[0]);
      assert added == [r];
      ProjectionAppend(console, r, j);
      assert Tagged(prefix, lines) == [r.text];
    }
  }

  /** The writer whose turn it is: its line goes out, and part of its call is done. */
  lemma OwnTurn(s: System, start: System, i: nat, next: System, l: Lines, call: Call, remains: Call, done: seq<seq<byte>>)
    requires i < |s.writers| == |start.writers| && |l.done| <= 1 && FaithfulTo(s, start, i, done)
    requires s.mutex == Held(i, call) && next.mutex == Held(i, remains)
    requires next.writers == s.writers[i := s.writers[i].(buf := l.rest)]
    requires next.console == s.console + Records(i, s.tickets, s.writers[i].prefix, l.done)
    requires Apply(Lines(done, s.writers[i].buf), call) == Apply(Lines(done + l.done, l.rest), remains)
    ensures FaithfulTo(next, start, i, done + l.done)
  {
    var w := s.writers[i];
    Emission(s.console, i, s.tickets, w.prefix, l.done, i);
    TaggedJoin(w.prefix, done, l.done);
    Resumed(Lines(done, w.buf), Lines(done + l.done, l.rest), call, remains, w.todo);
  }

  /** Any other writer: nothing changes for it. */
  lemma OthersTurn(s: System, start: System, i: nat, next: System, l: Lines, j: nat, done: seq<seq<byte>>)
    requires i < |s.writers| == |start.writers| && |l.done| <= 1
    requires j < |s.writers| && j != i && FaithfulTo(s, start, j, done)
    requires s.mutex.Held? && s.mutex.owner == i && next.mutex.Held? && next.mutex.owner == i
    requires next.writers == s.writers[i := s.writers[i].(buf := l.rest)]
    requires next.console == s.console + Records(i, s.tickets, s.writers[i].prefix, l.done)
    ensures FaithfulTo(next, start, j, done)
  {
    Emission(s.console, i, s.tickets, s.writers[i].prefix, l.done, j);
  }

  /** Part of a call done, the rest of it ahead: the outlook does not change. */
  lemma Resumed(before: Lines, now: Lines, call: Call, remains: Call, todo: seq<Call>)
    requires Apply(before, call) == Apply(now, remains)
    ensures After(before, [call] + todo) == After(now, [remains] + todo)
  {
    assert ([call] + todo)[1..] == todo == ([remains] + todo)[1..];
  }

  /** A step inside a call. */
  lemma InsideCall(s: System, start: System, i: nat, next: System, l: Lines, call: Call, remains: Call, soFar: seq<seq<seq<byte>>>)
    requires Faithful(s, start, soFar) && i < |s.writers| && |l.done| <= 1
    requires s.mutex == Held(i, call) && next.mutex == Held(i, remains)
    requires next.writers == s.writers[i := s.writers[i].(buf := l.rest)]
    requires next.console == s.console + Records(i, s.tickets, s.writers[i].prefix, l.done)
    requires Apply(Lines(soFar[i], s.writers[i].buf), call) == Apply(Lines(soFar[i] + l.done, l.rest), remains)
    ensures Faithful(next, start, soFar[i := soFar[i] + l.done])
  {
    OwnTurn(s, start, i, next, l, call, remains, soFar[i]);
    forall j | 0 <= j < |s.writers| && j != i ensures FaithfulTo(next, start, j, soFar[j]) {
      OthersTurn(s, start, i, next, l, j, soFar[j]);
    }
  }

  /** The lock is taken or released: no writer is ahead of or behind itself. */
  lemma Handover(s: System, start: System, i: nat, next: System, soFar: seq<seq<seq<byte>>>)
    requires Faithful(s, start, soFar) && StepOf(s, i, next)
    requires s.mutex.Free? || s.mutex.call == WriteCall([])
    ensures Faithful(next, start, soFar)
  {
    forall j | 0 <= j < |s.writers| ensures FaithfulTo(next, start, j, soFar[j]) {
      HandoverOf(s, start, i, next, j, soFar[j]);
    }
  }

  lemma HandoverOf(s: System, start: System, i: nat, next: System, j: nat, done: seq<seq<byte>>)
    requires j < |s.writers| == |start.writers| && FaithfulTo(s, start, j, done) && StepOf(s, i, next)
    requires s.mutex.Free? || s.mutex.call == WriteCall([])
    ensures FaithfulTo(next, start, j, done)
  {
    if s.mutex.Free? {
      assert [s.writers[i].todo[0]] + s.writers[i].todo[1..] == [] + s.writers[i].todo;
      assert Unfinished(next, j) == Unfinished(s, j);
    } else if j == i {
      var todo := s.writers[i].todo;
      assert ([WriteCall([])] + todo)[1..] == todo == [] + todo;
    } else {
      assert Unfinished(next, j) == Unfinished(s, j);
    }
  }

  /** Every step keeps the console faithful to each writer run alone. */
  lemma StepFaithful(s: System, i: nat, next: System, start: System, soFar: seq<seq<seq<byte>>>)
    returns (more: seq<seq<seq<byte>>>)
    requires Faithful(s, start, soFar) && StepOf(s, i, next)
    ensures Faithful(next, start, more)
  {
    if s.mutex.Free? || s.mutex.call == WriteCall([]) {
      more := soFar;
      Handover(s, start, i, next, soFar);
      return;
    }
    var buf := s.writers[i].buf;
    var b := if s.mutex.call.WriteCall? then s.mutex.call.p[0] else 0;
    OneLine(soFar[i], buf, b);
    match s.mutex.call {
      case WriteCall(p) =>
        var l := FeedByte(Lines([], buf), b);
        more := soFar[i := soFar[i] + l.done];
        FeedFirst(Lines(soFar[i], buf), p);
        InsideCall(s, start, i, next, l, WriteCall(p), WriteCall(p[1..]), soFar);
      case FlushCall =>
        var l := Close(Lines([], buf));
        more := soFar[i := soFar[i] + l.done];
        InsideCall(s, start, i, next, l, FlushCall, WriteCall([]), soFar);
    }
  }

  // ----- whole runs -----

  /** A run without its last state, and its last step. */
  lemma LastStep(run: seq<System>) returns (i: nat)
    requires IsRun(run) && |run| > 1
    ensures IsRun(run[..|run| - 1]) && StepOf(run[|run| - 2], i, run[|run| - 1])
  {
    var front := run[..|run| - 1];
    assert forall k :: 0 <= k < |front| - 1 ==> Next(front[k], front[k + 1]);
    assert Next(run[|run| - 2], run[|run| - 1]);
    i :| StepOf(run[|run| - 2], i, run[|run| - 1]);
  }

  lemma {:induction false} RunFaithful(run: seq<System>) returns (soFar: seq<seq<seq<byte>>>)
    requires IsRun(run)
    ensures Faithful(run[|run| - 1], run[0], soFar)
    decreases |run|
  {
    if |run| == 1 {
      var s := run[0];
      soFar := seq(|s.writers|, i => []);
      assert forall i :: 0 <= i < |s.writers| ==> Unfinished(s, i) == s.writers[i].todo;
    } else {
      var i := LastStep(run);
      var before := RunFaithful(run[..|run| - 1]);
      soFar := StepFaithful(run[|run| - 2], i, run[|run| - 1], run[0], before);
    }
  }

  predicate Finished(s: System) {
    s.mutex == Free && forall i :: 0 <= i < |s.writers| ==> s.writers[i].todo == []
  }

  /** Whatever is on the console was put there by one of the writers. */
  predicate Owned(s: System) {
    (s.mutex.Held? ==> s.mutex.owner < |s.writers|) && forall a :: 0 <= a < |s.console| ==> s.console[a].writer < |s.writers|
  }

  lemma StepOwned(s: System, i: nat, next: System)
    requires Owned(s) && StepOf(s, i, next)
    ensures Owned(next) && |next.writers| == |s.writers|
  {
  }

  lemma {:induction false} RunOwned(run: seq<System>)
    requires IsRun(run)
    ensures Owned(run[|run| - 1]) && |run[|run| - 1].writers| == |run[0].writers|
    decreases |run|
  {
    if |run| > 1 {
      var i := LastStep(run);
      RunOwned(run[..|run| - 1]);
      StepOwned(run[|run| - 2], i, run[|run| - 1]);
    }
  }

  /** Main result: however the writers interleave, once all calls are done the console
      is an order-preserving merge of what each writer would have printed alone: nothing on it
      is of anyone else, and what is of writer `i` is its own output in order. */
  lemma MergePreservesOrder(run: seq<System>, i: nat)
    requires IsRun(run) && Finished(run[|run| - 1]) && i < |run[|run| - 1].writers|
    ensures var start, final := run[0], run[|run| - 1];
            && i < |start.writers|
            && Projection(final.console, i) == Tagged(start.writers[i].prefix, After(EMPTY, start.writers[i].todo).done)
            && forall a :: 0 <= a < |final.console| ==> final.console[a].writer < |start.writers|
  {
    RunOwned(run);
    var final := run[|run| - 1];
    var soFar := RunFaithful(run);
    assert FaithfulTo(final, run[0], i, soFar[i]);
    assert Unfinished(final, i) == [];
    assert Outlook(final, i, soFar[i]) == Lines(soFar[i], final.writers[i].buf);
  }

  // ----- a call is never torn apart -----

  /** Records come in ticket order, and one ticket belongs to one writer. */
  predicate InOrder(console: seq<Record>, tickets: nat) {
    && (forall a, b :: 0 <= a <= b < |console| ==> console[a].ticket <= console[b].ticket)
    && (forall a :: 0 <= a < |console| ==> console[a].ticket <= tickets)
    && (forall a, b :: 0 <= a <= b < |console| && console[a].ticket == console[b].ticket ==> console[a].writer == console[b].writer)
  }

  predicate OwnedBy(console: seq<Record>, ticket: nat, owner: nat) {
    forall a :: 0 <= a < |console| && console[a].ticket == ticket ==> console[a].writer == owner
  }

  /** Tickets are handed out with the lock: the current one is that of its owner. */
  predicate Ticketed(s: System) {
    InOrder(s.console, s.tickets) && (s.mutex.Held? ==> OwnedBy(s.console, s.tickets, s.mutex.owner))
  }

  lemma OneMoreRecord(console: seq<Record>, tickets: nat, r: Record)
    requires InOrder(console, tickets) && OwnedBy(console, tickets, r.writer) && r.ticket == tickets
    ensures InOrder(console + [r], tickets) && OwnedBy(console + [r], tickets, r.writer)
  {
  }

  lemma PutOut(console: seq<Record>, i: nat, ticket: nat, prefix: seq<byte>, lines: seq<seq<byte>>)
    requires InOrder(console, ticket) && OwnedBy(console, ticket, i) && |lines| <= 1
    ensures var next := console + Records(i, ticket, prefix, lines); InOrder(next, ticket) && OwnedBy(next, ticket, i)
  {
    var added := Records(i, ticket, prefix, lines);
    if lines == [] {
      assert console + added == console;
    } else {
      assert added == [Record(i, ticket, prefix + lines[0])];
      OneMoreRecord(console, ticket, added[0]);
    }
  }

  lemma StepTicketed(s: System, i: nat, next: System)
    requires Ticketed(s) && StepOf(s, i, next)
    ensures Ticketed(next)
  {
    if s.mutex.Held? && s.mutex.call != WriteCall([]) {
      var w := s.writers[i];
      var l := if s.mutex.call.FlushCall? then Close(Lines([], w.buf)) else FeedByte(Lines([], w.buf), s.mutex.call.p[0]);
      PutOut(s.console, i, s.tickets, w.prefix, l.done);
    }
  }

  lemma {:induction false} RunTicketed(run: seq<System>)
    requires IsRun(run)
    ensures Ticketed(run[|run| - 1])
    decreases |run|
  {
    if |run| > 1 {
      var i := LastStep(run);
      RunTicketed(run[..|run| - 1]);
      StepTicketed(run[|run| - 2], i, run[|run| - 1]);
    }
  }

  /** The lines of one call stand together: no line of another call is between them. */
  lemma CallsContiguous(run: seq<System>, a: nat, b: nat, c: nat)
    requires IsRun(run) && a < b < c < |run[|run| - 1].console|
    requires run[|run| - 1].console[a].ticket == run[|run| - 1].console[c].ticket
    ensures run[|run| - 1].console[b].ticket == run[|run| - 1].console[a].ticket
    ensures run[|run| - 1].console[b].writer == run[|run| - 1].console[a].writer
  {
    RunTicketed(run);
  }
}
