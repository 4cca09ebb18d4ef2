/** Text comparison and sorting, as the standard library of Go provides them. */
module Ordering {

  /** Go compares strings by their code points from the left. */
  predicate Less(a: string, b: string) {
    b != [] && (a == [] || a[0] < b[0] || (a[0] == b[0] && Less(a[1..], b[1..])))
  }

  /** The order is that of a dictionary: a text that goes on comes after its beginning, and otherwise
      the first character that differs decides. */
  lemma {:induction false} LessIff(a: string, b: string)
    ensures Less(a, b) <==> exists n: nat :: FirstDifference(a, b, n) && n < |b| && (n < |a| ==> a[n] < b[n])
  {
    if a != [] && b != [] && a[0] == b[0] {
      LessIff(a[1..], b[1..]);
      forall n: nat | FirstDifference(a[1..], b[1..], n) ensures FirstDifference(a, b, n + 1) {
        assert a[..n + 1] == [a[0]] + a[1..][..n] && b[..n + 1] == [b[0]] + b[1..][..n];
      }
      forall n: nat | n > 0 && FirstDifference(a, b, n) ensures FirstDifference(a[1..], b[1..], n - 1) {
        assert a[1..][..n - 1] == a[..n][1..] && b[1..][..n - 1] == b[..n][1..];
      }
      assert !FirstDifference(a, b, 0);
    } else {
      assert FirstDifference(a, b, 0);
      assert forall n: nat :: n > 0 ==> !FirstDifference(a, b, n);
    }
  }

  /** The texts agree up to `n`, where one of them ends or they differ. */
  predicate FirstDifference(a: string, b: string, n: nat) {
    n <= |a| && n <= |b| && a[..n] == b[..n] && (n == |a| || n == |b| || a[n] != b[n])
  }

  lemma {:induction false} LessAsymmetric(a: string, b: string)
    requires Less(a, b)
    ensures !Less(b, a)
  {
    if a != [] && a[0] == b[0] {
      LessAsymmetric(a[1..], b[1..]);
    }
  }

  lemma {:induction false} LessTotal(a: string, b: string)
    ensures Less(a, b) || Less(b, a) || a == b
  {
    if a != [] && b != [] && a[0] == b[0] {
      LessTotal(a[1..], b[1..]);
      assert a == [a[0]] + a[1..] && b == [b[0]] + b[1..];
    }
  }

  lemma {:induction false} LessTransitive(a: string, b: string, c: string)
    requires Less(a, b) && Less(b, c)
    ensures Less(a, c)
  {
    if a != [] && a[0] == b[0] && b[0] == c[0] {
      LessTransitive(a[1..], b[1..], c[1..]);
    }
  }

  lemma NotLessTransitive(a: string, b: string, c: string)
    requires !Less(b, a) && !Less(c, b)
    ensures !Less(c, a)
  {
    LessTotal(a, b);
    LessTotal(b, c);
    if Less(c, a) {
      if a == b || b == c {
      } else {
        LessTransitive(a, b, c);
        LessAsymmetric(a, c);
      }
    }
  }

  /** A mark that is the least character and occurs in neither text compares the texts first. */
  lemma {:induction false} LessAtMark(a: string, x: string, b: string, y: string)
    requires '\0' !in a && '\0' !in b
    ensures Less(a + ("\0" + x), b + ("\0" + y)) <==> Less(a, b) || (a == b && Less(x, y))
  {
    var l, r := a + ("\0" + x), b + ("\0" + y);
    assert l[0] == if a == [] then '\0' else a[0];
    assert r[0] == if b == [] then '\0' else b[0];
    if a == [] && b == [] {
      assert l[1..] == x && r[1..] == y;
    } else if a != [] && b != [] {
      assert l[1..] == a[1..] + ("\0" + x) && r[1..] == b[1..] + ("\0" + y);
      LessAtMark(a[1..], x, b[1..], y);
      assert a == [a[0]] + a[1..] && b == [b[0]] + b[1..];
    }
  }

  /** The first text that differs decides. */
  ghost predicate RanksBefore(a: seq<string>, b: seq<string>)
    requires |a| == |b|
  {
    exists i :: 0 <= i < |a| && Less(a[i], b[i]) && a[..i] == b[..i]
  }

  lemma {:induction false} RanksCons(x: string, a: seq<string>, y: string, b: seq<string>)
    requires |a| == |b|
    ensures RanksBefore([x] + a, [y] + b) <==> Less(x, y) || (x == y && RanksBefore(a, b))
  {
    var l, r := [x] + a, [y] + b;
    if i :| 0 <= i < |l| && Less(l[i], r[i]) && l[..i] == r[..i] {
      if i > 0 {
        assert l[..i][0] == x && r[..i][0] == y;
        assert l[..i][1..] == a[..i - 1] && r[..i][1..] == b[..i - 1];
        assert Less(a[i - 1], b[i - 1]);
      }
    }
    if Less(x, y) {
      assert Less(l[0], r[0]) && l[..0] == r[..0];
    }
    if x == y && RanksBefore(a, b) {
      var i :| 0 <= i < |a| && Less(a[i], b[i]) && a[..i] == b[..i];
      assert l[..i + 1] == [x] + a[..i] && r[..i + 1] == [y] + b[..i] && Less(l[i + 1], r[i + 1]);
    }
  }

  /** `less` orders the elements of `s` up to ties. */
  ghost predicate WeakOrderOn<T>(s: seq<T>, less: (T, T) -> bool) {
    && (forall x, y :: x in s && y in s && less(x, y) ==> !less(y, x))
    && (forall x, y, z :: x in s && y in s && z in s && !less(y, x) && !less(z, y) ==> !less(z, x))
  }

  ghost predicate Sorted<T>(s: seq<T>, less: (T, T) -> bool) {
    forall i, j :: 0 <= i < j < |s| ==> !less(s[j], s[i])
  }

  lemma SameElements<T>(a: seq<T>, b: seq<T>)
    requires multiset(a) == multiset(b)
    ensures |a| == |b|
    ensures forall x :: x in a <==> x in b
  {
    assert |multiset(a)| == |multiset(b)|;
    forall x ensures x in a <==> x in b {
      assert x in a <==> x in multiset(a);
      assert x in b <==> x in multiset(b);
    }
  }

  lemma InsertKeepsSorted<T>(r: seq<T>, x: T, at: nat, less: (T, T) -> bool)
    requires WeakOrderOn(r + [x], less) && Sorted(r, less) && at <= |r|
    requires forall i :: at <= i < |r| ==> less(x, r[i])
    requires at > 0 ==> !less(x, r[at - 1])
    ensures Sorted(r[..at] + [x] + r[at..], less)
  {
    var all, q := r + [x], r[..at] + [x] + r[at..];
    assert all[|r|] == x;
    forall i | 0 <= i < at ensures !less(x, r[i]) {
      assert all[i] == r[i] && all[at - 1] == r[at - 1];
    }
    forall i | at <= i < |r| ensures !less(r[i], x) {
      assert all[i] == r[i];
    }
    forall i, j | 0 <= i < j < |q| ensures !less(q[j], q[i]) {
      var i' := if i <= at then i else i - 1;
      var j' := if j <= at then j else j - 1;
      assert i != at ==> q[i] == r[i'];
      assert j != at ==> q[j] == r[j'];
    }
  }

  method Insert<T>(r: seq<T>, x: T, less: (T, T) -> bool) returns (q: seq<T>)
    requires WeakOrderOn(r + [x], less) && Sorted(r, less)
    ensures Sorted(q, less)
    ensures multiset(q) == multiset(r) + multiset{x}
  {
    var at := |r|;
    while at > 0 && less(x, r[at - 1])
      invariant 0 <= at <= |r|
      invariant forall i :: at <= i < |r| ==> less(x, r[i])
    {
      at := at - 1;
    }
    q := r[..at] + [x] + r[at..];
    InsertKeepsSorted(r, x, at, less);
    assert multiset(r) == multiset(r[..at]) + multiset(r[at..]) by {
      assert r == r[..at] + r[at..];
    }
  }

  /** sort.Slice and sort.SliceStable: callers rely only on the result being an ordered
      rearrangement. */
  method Sort<T>(s: seq<T>, less: (T, T) -> bool) returns (r: seq<T>)
    requires WeakOrderOn(s, less)
    ensures Sorted(r, less)
    ensures multiset(r) == multiset(s)
  {
    r := [];
    for n := 0 to |s|
      invariant Sorted(r, less)
      invariant multiset(r) == multiset(s[..n])
    {
      SameElements(r, s[..n]);
      assert forall y :: y in r + [s[n]] ==> y in s;
      r := Insert(r, s[n], less);
      assert s[..n + 1] == s[..n] + [s[n]];
    }
    assert s[..|s|] == s;
  }
}
