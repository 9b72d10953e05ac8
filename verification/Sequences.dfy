/** Small facts about sequences that several components use. */
module Sequences {
  ghost predicate NoDuplicates<T>(s: seq<T>) {
    forall i, j :: 0 <= i < j < |s| ==> s[i] != s[j]
  }

  function Without<T(==, !new)>(s: seq<T>, x: T): (r: seq<T>)
    ensures forall y :: y in r <==> y in s && y != x
  {
    if s == [] then []
    else if s[0] == x then Without(s[1..], x)
    else [s[0]] + Without(s[1..], x)
  }

  lemma {:induction false} WithoutKeepsDistinct<T(!new)>(s: seq<T>, x: T)
    requires NoDuplicates(s)
    ensures NoDuplicates(Without(s, x))
  {
    if s != [] {
      WithoutKeepsDistinct(s[1..], x);
      if s[0] != x {
        var rest := Without(s[1..], x);
        forall i | 0 <= i < |rest| ensures rest[i] != s[0] {
          assert rest[i] in rest;
        }
      }
    }
  }

  /** Taking an element out goes piece by piece, so what is left keeps its order. */
  lemma {:induction false} WithoutInParts<T(!new)>(a: seq<T>, b: seq<T>, x: T, y: T)
    ensures Without(a + b, x) == Without(a, x) + Without(b, x)
    ensures Without([y], x) == if y == x then [] else [y]
  {
    if a == [] {
      assert a + b == b;
    } else {
      WithoutInParts(a[1..], b, x, y);
      assert (a + b)[1..] == a[1..] + b;
    }
  }

  function Concat<T>(parts: seq<seq<T>>): seq<T> {
    if parts == [] then [] else parts[0] + Concat(parts[1..])
  }

  lemma {:induction false} ConcatLast<T>(parts: seq<seq<T>>)
    requires parts != []
    ensures Concat(parts) == Concat(parts[..|parts| - 1]) + parts[|parts| - 1]
  {
    if |parts| > 1 {
      ConcatLast(parts[1..]);
      assert parts[1..][..|parts| - 2] == parts[..|parts| - 1][1..];
    }
  }

  lemma {:induction false} ConcatAdds<T>(a: seq<seq<T>>, b: seq<seq<T>>)
    ensures Concat(a + b) == Concat(a) + Concat(b)
  {
    if a == [] {
      assert a + b == b && [] + Concat(b) == Concat(b);
    } else {
      ConcatAdds(a[1..], b);
      assert (a + b)[1..] == a[1..] + b && (a + b)[0] == a[0];
      Associative(a[0], Concat(a[1..]), Concat(b));
    }
  }

  lemma Associative<T>(a: seq<T>, b: seq<T>, c: seq<T>)
    ensures a + (b + c) == (a + b) + c
  {
  }

  /** A condition as a count. */
  function One(b: bool): nat {
    if b then 1 else 0
  }
}
