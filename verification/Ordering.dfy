/** Stable sorting by a text key: the order the book, the subscription plans and the decoded
    events are reported in. */
module Ordering {

  /** Strict lexicographic order on text. */
  predicate Less(a: string, b: string) {
    if b == "" then false
    else if a == "" then true
    else if a[0] != b[0] then a[0] < b[0]
    else Less(a[1..], b[1..])
  }

  lemma {:induction false} LessTrichotomy(a: string, b: string)
    ensures Less(a, b) || Less(b, a) || a == b
    ensures !(Less(a, b) && Less(b, a)) && !Less(a, a)
  {
    if a != "" && b != "" {
      LessTrichotomy(a[1..], b[1..]);
      LessTrichotomy(a[1..], a[1..]);
      assert a == [a[0]] + a[1..] && b == [b[0]] + b[1..];
    } else if a != "" {
      LessTrichotomy(a[1..], a[1..]);
    }
  }

  lemma {:induction false} LessTransitive(a: string, b: string, c: string)
    requires !Less(b, a) && !Less(c, b)
    ensures !Less(c, a)
  {
    if a != "" && b != "" && c != "" {
      if a[0] == b[0] == c[0] {
        LessTransitive(a[1..], b[1..], c[1..]);
      }
    }
  }

  /** The first place where two different texts differ decides, and a proper prefix comes first. */
  lemma {:induction false} LessIsLexicographic(a: string, b: string)
    ensures Less(a, b) <==> exists i: nat :: DecidesAt(a, b, i)
  {
    if a != "" && b != "" && a[0] == b[0] {
      LessIsLexicographic(a[1..], b[1..]);
      if i: nat :| DecidesAt(a[1..], b[1..], i) {
        assert a[..i + 1] == [a[0]] + a[1..][..i] && b[..i + 1] == [b[0]] + b[1..][..i];
        assert DecidesAt(a, b, i + 1);
      }
      if i: nat :| DecidesAt(a, b, i) {
        assert a[..i] == b[..i];
        if i > 0 {
          assert a[1..][..i - 1] == a[..i][1..] && b[1..][..i - 1] == b[..i][1..];
          assert DecidesAt(a[1..], b[1..], i - 1);
        }
      }
    } else if Less(a, b) {
      assert DecidesAt(a, b, 0);
    } else {
      forall i: nat ensures !DecidesAt(a, b, i) {
        FirstAgrees(a, b, i);
      }
    }
  }

  lemma FirstAgrees(a: string, b: string, i: nat)
    ensures DecidesAt(a, b, i) && i > 0 ==> a != "" && b != "" && a[0] == b[0]
  {
    if DecidesAt(a, b, i) && i > 0 {
      assert a[..i][0] == b[..i][0];
    }
  }

  /** Up to `i` the texts agree; there `a` ends and `b` does not, or has the smaller character. */
  predicate DecidesAt(a: string, b: string, i: nat) {
    && i <= |a| && i < |b| && a[..i] == b[..i]
    && (i == |a| || a[i] < b[i])
  }

  ghost predicate SortedBy<T>(xs: seq<T>, key: T -> string) {
    forall i, j :: 0 <= i < j < |xs| ==> !Less(key(xs[j]), key(xs[i]))
  }

  /** `x` placed behind every element whose key is not greater. */
  function Insert<T>(ys: seq<T>, x: T, key: T -> string): seq<T> {
    if ys != [] && Less(key(x), key(ys[|ys| - 1]))
    then Insert(ys[..|ys| - 1], x, key) + [ys[|ys| - 1]]
    else ys + [x]
  }

  function SortBy<T>(xs: seq<T>, key: T -> string): seq<T> {
    if xs == [] then []
    else Insert(SortBy(xs[..|xs| - 1], key), xs[|xs| - 1], key)
  }

  /** The elements with a given key, in order. */
  function WithKey<T>(xs: seq<T>, key: T -> string, k: string): seq<T> {
    if xs == [] then []
    else
      var front := WithKey(xs[..|xs| - 1], key, k);
      if key(xs[|xs| - 1]) == k then front + [xs[|xs| - 1]] else front
  }

  lemma {:induction false} InsertMembers<T>(ys: seq<T>, x: T, key: T -> string)
    ensures multiset(Insert(ys, x, key)) == multiset(ys) + multiset{x}
    ensures |Insert(ys, x, key)| == |ys| + 1
  {
    if ys != [] && Less(key(x), key(ys[|ys| - 1])) {
      InsertMembers(ys[..|ys| - 1], x, key);
      assert ys == ys[..|ys| - 1] + [ys[|ys| - 1]];
    }
  }

  lemma {:induction false} InsertSorts<T>(ys: seq<T>, x: T, key: T -> string)
    requires SortedBy(ys, key)
    ensures SortedBy(Insert(ys, x, key), key)
  {
    hide Less;
    if ys != [] {
      var front, last := ys[..|ys| - 1], ys[|ys| - 1];
      if Less(key(x), key(last)) {
        InsertSorts(front, x, key);
        InsertedStaysBelow(ys, x, key);
      } else {
        LastStaysBelow(ys, x, key);
      }
    }
  }

  /** An element placed before the last leaves the last the greatest. */
  lemma InsertedStaysBelow<T>(ys: seq<T>, x: T, key: T -> string)
    requires ys != [] && SortedBy(ys, key) && Less(key(x), key(ys[|ys| - 1]))
    ensures var zs := Insert(ys[..|ys| - 1], x, key);
      forall i :: 0 <= i < |zs| ==> !Less(key(ys[|ys| - 1]), key(zs[i]))
  {
    hide Less, Insert;
    var front, last := ys[..|ys| - 1], ys[|ys| - 1];
    var zs := Insert(front, x, key);
    InsertMembers(front, x, key);
    LessTrichotomy(key(x), key(last));
    forall i | 0 <= i < |zs| ensures !Less(key(last), key(zs[i])) {
      assert zs[i] in multiset(zs);
      if zs[i] != x {
        assert zs[i] in multiset(front);
        assert zs[i] in front;
      }
    }
  }

  /** An element not less than the last is not less than any. */
  lemma LastStaysBelow<T>(ys: seq<T>, x: T, key: T -> string)
    requires ys != [] && SortedBy(ys, key) && !Less(key(x), key(ys[|ys| - 1]))
    ensures forall i :: 0 <= i < |ys| ==> !Less(key(x), key(ys[i]))
  {
    hide Less;
    forall i | 0 <= i < |ys| - 1 ensures !Less(key(x), key(ys[i])) {
      LessTransitive(key(ys[i]), key(ys[|ys| - 1]), key(x));
    }
  }

  lemma {:induction false} InsertStable<T>(ys: seq<T>, x: T, key: T -> string, k: string)
    ensures WithKey(Insert(ys, x, key), key, k) == WithKey(ys + [x], key, k)
  {
    assert (ys + [x])[..|ys|] == ys;
    if ys != [] && Less(key(x), key(ys[|ys| - 1])) {
      var front, last := ys[..|ys| - 1], ys[|ys| - 1];
      LessTrichotomy(key(x), key(last));
      InsertStable(front, x, key, k);
      var zs := Insert(front, x, key) + [last];
      assert zs[..|zs| - 1] == Insert(front, x, key);
      assert (front + [x])[..|front|] == front;
    }
  }

  /** Sorting orders by key, keeps every element, and keeps elements of equal key in order. */
  lemma {:induction false} SortByIsStableSort<T>(xs: seq<T>, key: T -> string)
    ensures SortedBy(SortBy(xs, key), key)
    ensures multiset(SortBy(xs, key)) == multiset(xs)
    ensures |SortBy(xs, key)| == |xs|
    ensures forall k :: WithKey(SortBy(xs, key), key, k) == WithKey(xs, key, k)
  {
    if xs != [] {
      var front, last := xs[..|xs| - 1], xs[|xs| - 1];
      assert xs == front + [last];
      SortByIsStableSort(front, key);
      InsertSorts(SortBy(front, key), last, key);
      InsertMembers(SortBy(front, key), last, key);
      forall k ensures WithKey(SortBy(xs, key), key, k) == WithKey(xs, key, k) {
        var ys := SortBy(front, key);
        InsertStable(ys, last, key, k);
        assert (ys + [last])[..|ys|] == ys;
      }
    }
  }

  /** Two sorted lists of the same distinct keys are the same list. */
  lemma {:induction false} SortedUnique(xs: seq<string>, ys: seq<string>)
    requires Increasing(xs) && Increasing(ys)
    requires forall m :: m in xs <==> m in ys
    ensures xs == ys
  {
    assert ys == [] || ys[0] in xs;
    if xs != [] {
      assert xs[0] in ys;
      LessTrichotomy(xs[0], ys[0]);
      assert xs[0] == ys[0];
      forall m ensures m in xs[1..] <==> m in ys[1..] {
        LessTrichotomy(xs[0], xs[0]);
        assert m in xs <==> m == xs[0] || m in xs[1..];
        assert m in ys <==> m == ys[0] || m in ys[1..];
      }
      SortedUnique(xs[1..], ys[1..]);
    }
  }

  /** A list of keys in order. */
  function Sorted(xs: seq<string>): seq<string> {
    SortBy(xs, (m: string) => m)
  }

  ghost predicate Increasing(xs: seq<string>) {
    forall i, j :: 0 <= i < j < |xs| ==> Less(xs[i], xs[j])
  }

  /** Distinct keys sort into strictly increasing order. */
  lemma SortedKeysStrict(xs: seq<string>)
    requires forall i, j :: 0 <= i < j < |xs| ==> xs[i] != xs[j]
    ensures Increasing(Sorted(xs))
    ensures forall m :: m in Sorted(xs) <==> m in xs
    ensures |Sorted(xs)| == |xs|
  {
    var ys := Sorted(xs);
    var key := (m: string) => m;
    SortByIsStableSort(xs, key);
    DistinctMultiset(xs);
    forall m ensures m in ys <==> m in xs {
      assert m in ys <==> m in multiset(ys);
      assert m in xs <==> m in multiset(xs);
    }
    forall i, j | 0 <= i < j < |ys| ensures Less(ys[i], ys[j]) {
      assert !Less(key(ys[j]), key(ys[i]));
      LessTrichotomy(ys[i], ys[j]);
      if ys[i] == ys[j] {
        RepeatedCounts(ys, i, j);
      }
    }
  }

  lemma IncreasingDistinct(xs: seq<string>)
    requires Increasing(xs)
    ensures forall i, j :: 0 <= i < j < |xs| ==> xs[i] != xs[j]
  {
    forall i, j | 0 <= i < j < |xs| ensures xs[i] != xs[j] {
      LessTrichotomy(xs[i], xs[j]);
    }
  }

  lemma {:induction false} DistinctMultiset(xs: seq<string>)
    requires forall i, j :: 0 <= i < j < |xs| ==> xs[i] != xs[j]
    ensures forall m :: multiset(xs)[m] <= 1
  {
    if xs != [] {
      var front, last := xs[..|xs| - 1], xs[|xs| - 1];
      DistinctMultiset(front);
      assert xs == front + [last];
      assert last !in front;
    }
  }

  lemma RepeatedCounts(ys: seq<string>, i: nat, j: nat)
    requires i < j < |ys| && ys[i] == ys[j]
    ensures multiset(ys)[ys[i]] >= 2
  {
    assert ys == ys[..j] + [ys[j]] + ys[j + 1..];
    assert ys[i] in ys[..j];
  }
}
