/** Byte order on names, as `sort.Strings` sees it. */
module Names {
  predicate Less(a: string, b: string) {
    b != "" && (a == "" || a[0] < b[0] || (a[0] == b[0] && Less(a[1..], b[1..])))
  }

  lemma {:induction false} LessTotal(a: string, b: string)
    ensures Less(a, b) || a == b || Less(b, a)
  {
    if a != "" && b != "" && a[0] == b[0] {
      LessTotal(a[1..], b[1..]);
      assert a == [a[0]] + a[1..] && b == [b[0]] + b[1..];
    }
  }

  lemma {:induction false} LessTransitive(a: string, b: string, c: string)
    requires Less(a, b) && Less(b, c)
    ensures Less(a, c)
  {
    if a != "" && a[0] == b[0] && b[0] == c[0] {
      LessTransitive(a[1..], b[1..], c[1..]);
    }
  }

  lemma {:induction false} LessIrreflexive(a: string)
    ensures !Less(a, a)
  {
    if a != "" {
      LessIrreflexive(a[1..]);
    }
  }

  predicate Sorted(names: seq<string>) {
    forall i, j :: 0 <= i < j < |names| ==> Less(names[i], names[j])
  }

  /** One more name at its place. */
  method Insert(names: seq<string>, n: string) returns (r: seq<string>)
    requires Sorted(names) && n !in names
    ensures Sorted(r) && forall x :: x in r <==> x in names || x == n
  {
    var k := 0;
    while k < |names| && Less(names[k], n)
      invariant 0 <= k <= |names| && forall i :: 0 <= i < k ==> Less(names[i], n)
    {
      k := k + 1;
    }
    forall i | k <= i < |names| ensures Less(n, names[i]) {
      LessTotal(n, names[k]);
      if i > k {
        LessTransitive(n, names[k], names[i]);
      }
    }
    SortedAround(names[..k], n, names[k..]);
    MembersAround(names[..k], n, names[k..]);
    assert names == names[..k] + names[k..];
    r := names[..k] + [n] + names[k..];
  }

  lemma SortedAround(a: seq<string>, n: string, b: seq<string>)
    requires Sorted(a) && Sorted(b)
    requires (forall i :: 0 <= i < |a| ==> Less(a[i], n)) && (forall i :: 0 <= i < |b| ==> Less(n, b[i]))
    ensures Sorted(a + [n] + b)
  {
    forall i, j | 0 <= i < |a| && 0 <= j < |b| ensures Less(a[i], b[j]) {
      LessTransitive(a[i], n, b[j]);
    }
  }

  lemma MembersAround(a: seq<string>, n: string, b: seq<string>)
    ensures forall x :: x in a + [n] + b <==> x in a + b || x == n
  {
  }

  /** The keys of a map in byte order, whatever order the map yields them in. */
  method SortedKeys(keys: set<string>) returns (r: seq<string>)
    ensures Sorted(r) && forall x :: x in r <==> x in keys
  {
    var rest := keys;
    r := [];
    while rest != {}
      invariant rest <= keys && Sorted(r)
      invariant forall x :: x in r <==> x in keys && x !in rest
      decreases |rest|
    {
      var n :| n in rest;
      r := Insert(r, n);
      rest := rest - {n};
    }
  }
}
