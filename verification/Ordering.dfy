/** The sort orders of the snapshot (helpers.go:8-32, pod.go:29-42, snapshot.go:176-234) and in-place
    sorting (informer.go:66-73). */
module Ordering {
  import opened Pods

  /** Go's `<` on strings. */
  predicate StrLess(a: string, b: string) {
    b != [] && (a == [] || a[0] < b[0] || (a[0] == b[0] && StrLess(a[1..], b[1..])))
  }

  lemma {:induction false} StrLessIsStrict(a: string, b: string)
    ensures !StrLess(a, a)
    ensures StrLess(a, b) ==> !StrLess(b, a)
    ensures a != b ==> StrLess(a, b) || StrLess(b, a)
  {
    if a != [] {
      StrLessIsStrict(a[1..], if b != [] then b[1..] else []);
      if b != [] && a[0] == b[0] {
        assert a == [a[0]] + a[1..] && b == [b[0]] + b[1..];
      }
    }
  }

  /** a comes before b: they agree up to i, where a ends or has the smaller character. */
  predicate DiffersAt(a: string, b: string, i: int) {
    0 <= i <= |a| && i < |b| && a[..i] == b[..i] && (i == |a| || a[i] < b[i])
  }

  lemma AgreeBefore(a: string, b: string, i: int)
    requires DiffersAt(a, b, i)
    ensures i > 0 ==> a[0] == b[0]
  {
    if i > 0 {
      assert a[..i][0] == b[..i][0];
    }
  }

  /** The comparison is decided by the first difference. */
  lemma {:induction false} StrLessIsFirstDifference(a: string, b: string)
    ensures StrLess(a, b) <==> exists i :: DiffersAt(a, b, i)
  {
    if a != [] && b != [] && a[0] == b[0] {
      StrLessIsFirstDifference(a[1..], b[1..]);
      assert a == [a[0]] + a[1..] && b == [a[0]] + b[1..];
      forall i | 0 <= i <= |a[1..]| ensures DiffersAt(a[1..], b[1..], i) <==> DiffersAt(a, b, i + 1) {
        assert a[..i + 1] == [a[0]] + a[1..][..i];
        assert i < |b[1..]| ==> b[..i + 1] == [a[0]] + b[1..][..i];
      }
      if k :| DiffersAt(a, b, k) {
        assert k > 0 && DiffersAt(a[1..], b[1..], k - 1);
      }
    } else if StrLess(a, b) {
      assert DiffersAt(a, b, 0);
    } else if k :| DiffersAt(a, b, k) {
      AgreeBefore(a, b, k);
    }
  }

  lemma {:induction false} StrLessIsTransitive(a: string, b: string, c: string)
    requires StrLess(a, b) && StrLess(b, c)
    ensures StrLess(a, c)
  {
    if a != [] && a[0] == b[0] == c[0] {
      StrLessIsTransitive(a[1..], b[1..], c[1..]);
    }
  }

  predicate NsNameLess(ns1: string, n1: string, ns2: string, n2: string) {
    if ns1 != ns2 then StrLess(ns1, ns2) else StrLess(n1, n2)
  }

  /** Pods by namespace, owner kind, owner name and name. */
  predicate PodLess(sets: ReplicaSets, a: Pod, b: Pod) {
    var (ak, an) := Owner(a, sets);
    var (bk, bn) := Owner(b, sets);
    if a.namespace != b.namespace then StrLess(a.namespace, b.namespace)
    else if ak != bk then StrLess(ak, bk)
    else if an != bn then StrLess(an, bn)
    else StrLess(a.name, b.name)
  }

  function PodOrder(sets: ReplicaSets): (less: (Pod, Pod) -> bool) {
    (a, b) => PodLess(sets, a, b)
  }

  /** `less` is a strict total order on the elements of s. */
  ghost predicate IsTotalOn<T(!new)>(less: (T, T) -> bool, s: seq<T>) {
    && (forall x, y :: x in s && y in s && less(x, y) ==> !less(y, x))
    && (forall x, y :: x in s && y in s && x != y ==> less(x, y) || less(y, x))
    && (forall x, y, z :: x in s && y in s && z in s && less(x, y) && less(y, z) ==> less(x, z))
  }

  /** Lexicographic comparison of keys that are lists of strings of one length. */
  predicate KeyLess(a: seq<string>, b: seq<string>)
    requires |a| == |b|
  {
    a != [] && (if a[0] != b[0] then StrLess(a[0], b[0]) else KeyLess(a[1..], b[1..]))
  }

  lemma {:induction false} KeyLessIsStrict(a: seq<string>, b: seq<string>)
    requires |a| == |b|
    ensures KeyLess(a, b) ==> !KeyLess(b, a)
    ensures a != b ==> KeyLess(a, b) || KeyLess(b, a)
  {
    if a != [] {
      StrLessIsStrict(a[0], b[0]);
      if a[0] == b[0] {
        KeyLessIsStrict(a[1..], b[1..]);
        assert a == [a[0]] + a[1..] && b == [b[0]] + b[1..];
      }
    }
  }

  lemma {:induction false} KeyLessIsTransitive(a: seq<string>, b: seq<string>, c: seq<string>)
    requires |a| == |b| == |c| && KeyLess(a, b) && KeyLess(b, c)
    ensures KeyLess(a, c)
  {
    if a[0] == b[0] == c[0] {
      KeyLessIsTransitive(a[1..], b[1..], c[1..]);
    } else if a[0] != b[0] && b[0] != c[0] {
      StrLessIsTransitive(a[0], b[0], c[0]);
      StrLessIsStrict(a[0], c[0]);
    }
  }

  function PodSortKey(sets: ReplicaSets, p: Pod): (key: seq<string>)
    ensures |key| == 4
  {
    [p.namespace, Owner(p, sets).0, Owner(p, sets).1, p.name]
  }

  lemma PodLessIsKeyLess(sets: ReplicaSets, a: Pod, b: Pod)
    ensures PodLess(sets, a, b) <==> KeyLess(PodSortKey(sets, a), PodSortKey(sets, b))
  {
    var (ak, an) := Owner(a, sets);
    var (bk, bn) := Owner(b, sets);
    KeyLessUnfolds(a.namespace, [ak, an, a.name], b.namespace, [bk, bn, b.name]);
    KeyLessUnfolds(ak, [an, a.name], bk, [bn, b.name]);
    KeyLessUnfolds(an, [a.name], bn, [b.name]);
    KeyLessUnfolds(a.name, [], b.name, []);
    StrLessIsStrict(a.name, b.name);
    assert PodSortKey(sets, a) == [a.namespace] + [ak, an, a.name];
    assert PodSortKey(sets, b) == [b.namespace] + [bk, bn, b.name];
    assert [ak, an, a.name] == [ak] + [an, a.name] && [bk, bn, b.name] == [bk] + [bn, b.name];
    assert [an, a.name] == [an] + [a.name] && [bn, b.name] == [bn] + [b.name];
    assert [a.name] == [a.name] + [] && [b.name] == [b.name] + [];
  }

  lemma KeyLessUnfolds(x: string, xs: seq<string>, y: string, ys: seq<string>)
    requires |xs| == |ys|
    ensures KeyLess([x] + xs, [y] + ys) <==> if x != y then StrLess(x, y) else KeyLess(xs, ys)
  {
    assert ([x] + xs)[1..] == xs && ([y] + ys)[1..] == ys;
  }

  ghost predicate DistinctPodNames(pods: seq<Pod>) {
    forall p, q :: p in pods && q in pods && p.namespace == q.namespace && p.name == q.name ==> p == q
  }

  /** With owner lookups fixed, pods of distinct (namespace, name) are totally ordered. */
  lemma {:induction false} PodLessIsTotal(sets: ReplicaSets, pods: seq<Pod>)
    requires DistinctPodNames(pods)
    ensures IsTotalOn(PodOrder(sets), pods)
  {
    forall x, y
      ensures PodLess(sets, x, y) ==> !PodLess(sets, y, x)
      ensures PodSortKey(sets, x) != PodSortKey(sets, y) ==> PodLess(sets, x, y) || PodLess(sets, y, x)
    {
      PodLessIsKeyLess(sets, x, y);
      PodLessIsKeyLess(sets, y, x);
      KeyLessIsStrict(PodSortKey(sets, x), PodSortKey(sets, y));
    }
    forall x, y | x in pods && y in pods && x != y ensures PodSortKey(sets, x) != PodSortKey(sets, y) {
      assert PodSortKey(sets, x)[0] == x.namespace && PodSortKey(sets, x)[3] == x.name;
      assert PodSortKey(sets, y)[0] == y.namespace && PodSortKey(sets, y)[3] == y.name;
    }
    forall x, y, z | PodLess(sets, x, y) && PodLess(sets, y, z) ensures PodLess(sets, x, z) {
      PodLessIsKeyLess(sets, x, y);
      PodLessIsKeyLess(sets, y, z);
      PodLessIsKeyLess(sets, x, z);
      KeyLessIsTransitive(PodSortKey(sets, x), PodSortKey(sets, y), PodSortKey(sets, z));
    }
  }

  // ---- sorting ------------------------------------------------------------------------------------

  function Insert<T>(s: seq<T>, x: T, less: (T, T) -> bool): (r: seq<T>) {
    if s == [] || !less(x, s[|s| - 1]) then s + [x]
    else Insert(s[..|s| - 1], x, less) + [s[|s| - 1]]
  }

  /** A sorted rearrangement of s. */
  function SortBy<T>(s: seq<T>, less: (T, T) -> bool): (r: seq<T>) {
    if s == [] then [] else Insert(SortBy(s[..|s| - 1], less), s[|s| - 1], less)
  }

  ghost predicate IsSorted<T(!new)>(s: seq<T>, less: (T, T) -> bool) {
    forall i, j :: 0 <= i < j < |s| ==> !less(s[j], s[i])
  }

  lemma {:induction false} InsertPermutes<T>(s: seq<T>, x: T, less: (T, T) -> bool)
    ensures multiset(Insert(s, x, less)) == multiset(s) + multiset{x}
  {
    if s != [] && less(x, s[|s| - 1]) {
      InsertPermutes(s[..|s| - 1], x, less);
      assert s == s[..|s| - 1] + [s[|s| - 1]];
    }
  }

  lemma {:induction false} SortPermutes<T>(s: seq<T>, less: (T, T) -> bool)
    ensures multiset(SortBy(s, less)) == multiset(s) && |SortBy(s, less)| == |s|
  {
    if s != [] {
      SortPermutes(s[..|s| - 1], less);
      InsertPermutes(SortBy(s[..|s| - 1], less), s[|s| - 1], less);
      assert s == s[..|s| - 1] + [s[|s| - 1]];
    }
    assert |multiset(SortBy(s, less))| == |multiset(s)|;
  }

  lemma MemberOfPermutation<T>(a: seq<T>, b: seq<T>, x: T)
    requires multiset(a) == multiset(b)
    ensures x in a <==> x in b
  {
    assert x in a <==> x in multiset(a);
    assert x in b <==> x in multiset(b);
  }

  lemma TwiceIn<T>(s: seq<T>, i: nat, j: nat)
    requires i < j < |s| && s[i] == s[j]
    ensures multiset(s)[s[i]] >= 2
  {
    assert s == s[..j] + s[j..];
    assert s[i] == s[..j][i] && s[j] == s[j..][0];
    assert s[i] in multiset(s[..j]) && s[i] in multiset(s[j..]);
  }

  lemma {:induction false} OnceIn<T>(s: seq<T>, x: T)
    requires forall i, j :: 0 <= i < j < |s| ==> s[i] != s[j]
    ensures multiset(s)[x] <= 1
  {
    if s != [] {
      var front, last := s[..|s| - 1], s[|s| - 1];
      OnceIn(front, x);
      assert s == front + [last];
      assert last !in front;
    }
  }

  /** Elements with distinct keys have distinct keys in any arrangement. */
  lemma KeysStayDistinct<T, K>(s: seq<T>, arranged: seq<T>, key: T -> K)
    requires multiset(arranged) == multiset(s)
    requires forall i, j :: 0 <= i < j < |s| ==> key(s[i]) != key(s[j])
    ensures forall i, j :: 0 <= i < j < |arranged| ==> key(arranged[i]) != key(arranged[j])
  {
    forall i, j | 0 <= i < j < |arranged| ensures key(arranged[i]) != key(arranged[j]) {
      MemberOfPermutation(arranged, s, arranged[i]);
      MemberOfPermutation(arranged, s, arranged[j]);
      if arranged[i] == arranged[j] {
        TwiceIn(arranged, i, j);
        OnceIn(s, arranged[i]);
      }
    }
  }

  lemma {:induction false} InsertSorts<T(!new)>(s: seq<T>, x: T, less: (T, T) -> bool)
    requires IsSorted(s, less) && IsTotalOn(less, s + [x])
    ensures IsSorted(Insert(s, x, less), less)
  {
    if s != [] {
      var front, last := s[..|s| - 1], s[|s| - 1];
      if less(x, last) {
        SubTotal(front + [x], s + [x], less);
        InsertSorts(front, x, less);
        var ins := Insert(front, x, less);
        InsertPermutes(front, x, less);
        forall i | 0 <= i < |ins| ensures !less(last, ins[i]) {
          assert ins[i] in multiset(ins);
          assert ins[i] in front || ins[i] == x;
        }
      } else {
        forall i | 0 <= i < |s| ensures !less(x, s[i]) {
          LastIsUpperBound(s, x, i, less);
        }
      }
    }
  }

  lemma SubTotal<T(!new)>(s: seq<T>, all: seq<T>, less: (T, T) -> bool)
    requires IsTotalOn(less, all) && forall x :: x in s ==> x in all
    ensures IsTotalOn(less, s)
  {
  }

  lemma LastIsUpperBound<T(!new)>(s: seq<T>, x: T, i: nat, less: (T, T) -> bool)
    requires IsSorted(s, less) && IsTotalOn(less, s + [x]) && i < |s| && !less(x, s[|s| - 1])
    ensures !less(x, s[i])
  {
    var last := s[|s| - 1];
    assert s[i] in s + [x] && last in s + [x] && x in s + [x];
    if i < |s| - 1 {
      assert !less(last, s[i]);
    }
  }

  lemma {:induction false} SortSorts<T(!new)>(s: seq<T>, less: (T, T) -> bool)
    requires IsTotalOn(less, s)
    ensures IsSorted(SortBy(s, less), less)
  {
    if s != [] {
      var front, last := s[..|s| - 1], s[|s| - 1];
      SubTotal(front, s, less);
      SortSorts(front, less);
      SortPermutes(front, less);
      forall x | x in SortBy(front, less) + [last] ensures x in s {
        if x in SortBy(front, less) {
          MemberOfPermutation(SortBy(front, less), front, x);
        }
      }
      SubTotal(SortBy(front, less) + [last], s, less);
      InsertSorts(SortBy(front, less), last, less);
    }
  }

  /** Two sorted rearrangements of the same elements are the same list. */
  lemma {:induction false} SortedIsUnique<T(!new)>(a: seq<T>, b: seq<T>, less: (T, T) -> bool)
    requires multiset(a) == multiset(b) && IsTotalOn(less, a) && IsSorted(a, less) && IsSorted(b, less)
    ensures a == b
  {
    assert |a| == |multiset(a)| == |multiset(b)| == |b|;
    if a != [] {
      SameFirst(a, b, less);
      WithoutFirst(a);
      WithoutFirst(b);
      SubTotal(a[1..], a, less);
      TailIsSorted(a, less);
      TailIsSorted(b, less);
      SortedIsUnique(a[1..], b[1..], less);
    }
  }

  lemma WithoutFirst<T>(s: seq<T>)
    requires s != []
    ensures s == [s[0]] + s[1..] && multiset(s[1..]) == multiset(s) - multiset{s[0]}
  {
    assert s == [s[0]] + s[1..];
  }

  lemma TailIsSorted<T(!new)>(s: seq<T>, less: (T, T) -> bool)
    requires s != [] && IsSorted(s, less)
    ensures IsSorted(s[1..], less)
  {
  }

  lemma SameFirst<T(!new)>(a: seq<T>, b: seq<T>, less: (T, T) -> bool)
    requires multiset(a) == multiset(b) && IsTotalOn(less, a) && IsSorted(a, less) && IsSorted(b, less)
    requires a != [] && b != []
    ensures a[0] == b[0]
  {
    MemberOfPermutation(a, b, a[0]);
    MemberOfPermutation(a, b, b[0]);
    var j :| 0 <= j < |b| && b[j] == a[0];
    var k :| 0 <= k < |a| && a[k] == b[0];
    if j > 0 && k > 0 {
      assert !less(b[j], b[0]) && !less(a[k], a[0]);
    }
  }

  /** So whatever sorting algorithm is used, and in whatever order the informer lists, the result is the
      one SortBy gives. */
  lemma SortIgnoresInputOrder<T(!new)>(listed: seq<T>, other: seq<T>, sorted: seq<T>, less: (T, T) -> bool)
    requires IsTotalOn(less, listed) && multiset(other) == multiset(listed) == multiset(sorted)
    requires IsSorted(sorted, less)
    ensures SortBy(other, less) == SortBy(listed, less) == sorted
  {
    SortPermutes(listed, less);
    SortSorts(listed, less);
    forall x | x in other ensures x in listed { MemberOfPermutation(other, listed, x); }
    forall x | x in sorted ensures x in listed { MemberOfPermutation(sorted, listed, x); }
    SubTotal(other, listed, less);
    SubTotal(sorted, listed, less);
    SortPermutes(other, less);
    SortSorts(other, less);
    SortedIsUnique(sorted, SortBy(listed, less), less);
    SortedIsUnique(sorted, SortBy(other, less), less);
  }

  /** A Go slice: sorting it is seen by everyone who holds it. */
  class Slice<T> {
    var elems: seq<T>

    constructor (elems: seq<T>)
      ensures this.elems == elems
    {
      this.elems := elems;
    }

    /** sort.Slice. The order is the only one possible for the orders used here: SortIgnoresInputOrder. */
    method Sort(less: (T, T) -> bool)
      modifies this
      ensures elems == SortBy(old(elems), less)
    {
      var sorted: seq<T> := [];
      for i := 0 to |elems|
        invariant elems == old(elems)
        invariant sorted == SortBy(elems[..i], less)
      {
        assert elems[..i + 1][..i] == elems[..i];
        sorted := Insert(sorted, elems[i], less);
      }
      assert elems[..|elems|] == elems;
      elems := sorted;
    }
  }
}
