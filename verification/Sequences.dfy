/** What the verifier has to be told about sequences. */
module Sequences {
  lemma Assoc<T>(a: seq<T>, b: seq<T>, c: seq<T>)
    ensures (a + b) + c == a + (b + c)
  {
  }

  // ----- entry by entry -----

  function Mapped<T, U>(f: T -> U, s: seq<T>): seq<U> {
    if s == [] then [] else Mapped(f, s[..|s| - 1]) + [f(s[|s| - 1])]
  }

  lemma MappedMore<T, U>(f: T -> U, s: seq<T>, x: T)
    ensures Mapped(f, s + [x]) == Mapped(f, s) + [f(x)]
  {
    assert (s + [x])[..|s|] == s;
  }

  lemma {:induction false} MappedConcat<T, U>(f: T -> U, a: seq<T>, b: seq<T>)
    ensures Mapped(f, a + b) == Mapped(f, a) + Mapped(f, b)
  {
    if b == [] {
      assert a + b == a;
    } else {
      assert (a + b)[..|a + b| - 1] == a + b[..|b| - 1];
      MappedConcat(f, a, b[..|b| - 1]);
    }
  }

  /** What one function does to every entry the other undoes. */
  lemma {:induction false} MappedBack<T, U>(f: T -> U, g: U -> T, s: seq<T>)
    requires forall k :: 0 <= k < |s| ==> g(f(s[k])) == s[k]
    ensures Mapped(g, Mapped(f, s)) == s
  {
    if s != [] {
      var front, x := s[..|s| - 1], s[|s| - 1];
      MappedBack(f, g, front);
      MappedMore(g, Mapped(f, front), f(x));
      assert s == front + [x];
    }
  }

  lemma {:induction false} MappedAll<T, U>(f: T -> U, s: seq<T>, p: U -> bool)
    requires forall k :: 0 <= k < |s| ==> p(f(s[k]))
    ensures forall k :: 0 <= k < |Mapped(f, s)| ==> p(Mapped(f, s)[k])
  {
    if s != [] {
      MappedAll(f, s[..|s| - 1], p);
    }
  }

  // ----- one after the other -----

  function Flatten<T>(parts: seq<seq<T>>): seq<T> {
    if parts == [] then [] else Flatten(parts[..|parts| - 1]) + parts[|parts| - 1]
  }

  lemma FlattenMore<T>(parts: seq<seq<T>>, x: seq<T>)
    ensures Flatten(parts + [x]) == Flatten(parts) + x
  {
    assert (parts + [x])[..|parts|] == parts;
  }
}
