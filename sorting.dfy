/**
 * Python's `sorted` on strings, by a string key, in both directions,
 * and the fact that ties aside the sorted order is unique.
 */
module Sorting {
  import opened Strings

  /** Ascending by key. */
  ghost predicate SortedBy<T>(s: seq<T>, key: T -> string) {
    forall i, j :: 0 <= i < j < |s| ==> LexLe(key(s[i]), key(s[j]))
  }

  /** Descending by key (what `sort(key=..., reverse=True)` produces). */
  ghost predicate SortedDescBy<T>(s: seq<T>, key: T -> string) {
    forall i, j :: 0 <= i < j < |s| ==> LexLe(key(s[j]), key(s[i]))
  }

  /** No two elements share a key. */
  ghost predicate KeysDistinct<T>(s: seq<T>, key: T -> string) {
    forall i, j :: 0 <= i < j < |s| ==> key(s[i]) != key(s[j])
  }

  /** In an ascending sequence no later key is below the first. */
  lemma TailAtLeastHead<T>(s: seq<T>, key: T -> string)
    requires |s| > 0 && SortedBy(s, key)
    ensures forall k :: 0 <= k < |s[1..]| ==> LexLe(key(s[0]), key(s[1..][k]))
  {
    forall k | 0 <= k < |s[1..]| ensures LexLe(key(s[0]), key(s[1..][k])) {
      assert s[1..][k] == s[k + 1];
    }
  }

  /** In a descending sequence no later key is above the first. */
  lemma TailAtMostHead<T>(s: seq<T>, key: T -> string)
    requires |s| > 0 && SortedDescBy(s, key)
    ensures forall k :: 0 <= k < |s[1..]| ==> LexLe(key(s[1..][k]), key(s[0]))
  {
    forall k | 0 <= k < |s[1..]| ensures LexLe(key(s[1..][k]), key(s[0])) {
      assert s[1..][k] == s[k + 1];
    }
  }

  /** A lower bound of `rest` and of `x` bounds every element of a rearrangement of both. */
  lemma InsertedAtLeast<T>(t: seq<T>, rest: seq<T>, x: T, key: T -> string, low: string)
    requires multiset(t) == multiset(rest) + multiset{x}
    requires LexLe(low, key(x))
    requires forall k :: 0 <= k < |rest| ==> LexLe(low, key(rest[k]))
    ensures forall j :: 0 <= j < |t| ==> LexLe(low, key(t[j]))
  {
    forall j | 0 <= j < |t| ensures LexLe(low, key(t[j])) {
      assert t[j] in multiset(t);
      if t[j] != x {
        assert t[j] in multiset(rest);
        var k :| 0 <= k < |rest| && rest[k] == t[j];
      }
    }
  }

  /** An upper bound of `rest` and of `x` bounds every element of a rearrangement of both. */
  lemma InsertedAtMost<T>(t: seq<T>, rest: seq<T>, x: T, key: T -> string, high: string)
    requires multiset(t) == multiset(rest) + multiset{x}
    requires LexLe(key(x), high)
    requires forall k :: 0 <= k < |rest| ==> LexLe(key(rest[k]), high)
    ensures forall j :: 0 <= j < |t| ==> LexLe(key(t[j]), high)
  {
    forall j | 0 <= j < |t| ensures LexLe(key(t[j]), high) {
      assert t[j] in multiset(t);
      if t[j] != x {
        assert t[j] in multiset(rest);
        var k :| 0 <= k < |rest| && rest[k] == t[j];
      }
    }
  }

  /** An element no greater than the first of an ascending sequence is no greater than any. */
  lemma AllAtLeastBelow<T>(s: seq<T>, key: T -> string, low: string)
    requires |s| > 0 && SortedBy(s, key) && LexLe(low, key(s[0]))
    ensures forall k :: 0 <= k < |s| ==> LexLe(low, key(s[k]))
  {
    forall k | 0 < k < |s| ensures LexLe(low, key(s[k])) {
      LexLeTrans(low, key(s[0]), key(s[k]));
    }
  }

  /** A key no smaller than the first of a descending sequence is no smaller than any. */
  lemma AllAtMostAbove<T>(s: seq<T>, key: T -> string, high: string)
    requires |s| > 0 && SortedDescBy(s, key) && LexLe(key(s[0]), high)
    ensures forall k :: 0 <= k < |s| ==> LexLe(key(s[k]), high)
  {
    forall k | 0 < k < |s| ensures LexLe(key(s[k]), high) {
      LexLeTrans(key(s[k]), key(s[0]), high);
    }
  }

  /** A head no greater than every element keeps a sequence ascending. */
  lemma PrependSorted<T>(h: T, t: seq<T>, key: T -> string)
    requires SortedBy(t, key)
    requires forall k :: 0 <= k < |t| ==> LexLe(key(h), key(t[k]))
    ensures SortedBy([h] + t, key)
  {
    var r := [h] + t;
    forall i, j | 0 <= i < j < |r| ensures LexLe(key(r[i]), key(r[j])) {
      assert r[j] == t[j - 1];
      if i > 0 { assert r[i] == t[i - 1]; }
    }
  }

  /** A head no smaller than every element keeps a sequence descending. */
  lemma PrependSortedDesc<T>(h: T, t: seq<T>, key: T -> string)
    requires SortedDescBy(t, key)
    requires forall k :: 0 <= k < |t| ==> LexLe(key(t[k]), key(h))
    ensures SortedDescBy([h] + t, key)
  {
    var r := [h] + t;
    forall i, j | 0 <= i < j < |r| ensures LexLe(key(r[j]), key(r[i])) {
      assert r[j] == t[j - 1];
      if i > 0 { assert r[i] == t[i - 1]; }
    }
  }

  /** `x` placed before the first element whose key is not smaller. */
  function InsertBy<T>(x: T, s: seq<T>, key: T -> string): (r: seq<T>)
    requires SortedBy(s, key)
    ensures SortedBy(r, key)
    ensures multiset(r) == multiset(s) + multiset{x}
  {
    if s == [] then [x]
    else if LexLe(key(x), key(s[0])) then
      AllAtLeastBelow(s, key, key(x));
      PrependSorted(x, s, key);
      [x] + s
    else
      var t := InsertBy(x, s[1..], key);
      assert s == [s[0]] + s[1..];
      LexLeTotal(key(x), key(s[0]));
      TailAtLeastHead(s, key);
      InsertedAtLeast(t, s[1..], x, key, key(s[0]));
      PrependSorted(s[0], t, key);
      [s[0]] + t
  }

  /** Python's `sorted(s, key=key)`: ascending. */
  function SortBy<T>(s: seq<T>, key: T -> string): (r: seq<T>)
    ensures SortedBy(r, key)
    ensures multiset(r) == multiset(s)
    ensures |r| == |s|
  {
    if s == [] then []
    else
      assert s == [s[0]] + s[1..];
      InsertBy(s[0], SortBy(s[1..], key), key)
  }

  /** `x` placed after every element whose key is not smaller. */
  function InsertDescBy<T>(x: T, s: seq<T>, key: T -> string): (r: seq<T>)
    requires SortedDescBy(s, key)
    ensures SortedDescBy(r, key)
    ensures multiset(r) == multiset(s) + multiset{x}
  {
    if s == [] then [x]
    else if LexLt(key(s[0]), key(x)) then
      AllAtMostAbove(s, key, key(x));
      PrependSortedDesc(x, s, key);
      [x] + s
    else
      var t := InsertDescBy(x, s[1..], key);
      assert s == [s[0]] + s[1..];
      LexLeTotal(key(x), key(s[0]));
      LexLeRefl(key(x));
      TailAtMostHead(s, key);
      InsertedAtMost(t, s[1..], x, key, key(s[0]));
      PrependSortedDesc(s[0], t, key);
      [s[0]] + t
  }

  lemma SortedTail<T>(s: seq<T>, key: T -> string)
    requires |s| > 0 && SortedBy(s, key) && KeysDistinct(s, key)
    ensures SortedBy(s[1..], key) && KeysDistinct(s[1..], key)
  {
    forall i, j | 0 <= i < j < |s| - 1 ensures LexLe(key(s[1..][i]), key(s[1..][j])) {
      assert s[1..][i] == s[i + 1] && s[1..][j] == s[j + 1];
    }
  }

  /** Sorted orderings of the same elements with distinct keys start alike. */
  lemma HeadsEqual<T>(a: seq<T>, b: seq<T>, key: T -> string)
    requires |a| > 0 && |b| > 0
    requires SortedBy(a, key) && SortedBy(b, key) && KeysDistinct(a, key)
    requires multiset(a) == multiset(b)
    ensures a[0] == b[0]
  {
    assert a[0] in multiset(b);
    var k :| 0 <= k < |b| && b[k] == a[0];
    assert b[0] in multiset(a);
    var m :| 0 <= m < |a| && a[m] == b[0];
    // key(b[0]) <= key(b[k]) = key(a[0]) <= key(a[m]) = key(b[0])
    if k != 0 { assert LexLe(key(b[0]), key(b[k])); } else { LexLeRefl(key(a[0])); }
    if m != 0 { assert LexLe(key(a[0]), key(a[m])); } else { LexLeRefl(key(a[0])); }
    LexLeAntisym(key(a[0]), key(b[0]));
  }

  lemma MultisetTail<T>(a: seq<T>, b: seq<T>)
    requires |a| > 0 && |b| > 0 && a[0] == b[0] && multiset(a) == multiset(b)
    ensures multiset(a[1..]) == multiset(b[1..])
  {
    assert a == [a[0]] + a[1..] && b == [b[0]] + b[1..];
    assert multiset(a) == multiset{a[0]} + multiset(a[1..]);
    assert multiset(b) == multiset{b[0]} + multiset(b[1..]);
    calc {
      multiset(a[1..]);
      multiset(a) - multiset{a[0]};
      multiset(b) - multiset{b[0]};
      multiset(b[1..]);
    }
  }

  lemma SortedTailOf<T>(s: seq<T>, key: T -> string)
    requires |s| > 0 && SortedBy(s, key)
    ensures SortedBy(s[1..], key)
  {
    forall i, j | 0 <= i < j < |s| - 1 ensures LexLe(key(s[1..][i]), key(s[1..][j])) {
      assert s[1..][i] == s[i + 1] && s[1..][j] == s[j + 1];
    }
  }

  /**
   * Two orderings of the same elements that are both sorted ascending by a
   * key that no two elements share are the same ordering.
   */
  lemma {:induction false} SortedUnique<T>(a: seq<T>, b: seq<T>, key: T -> string)
    requires SortedBy(a, key) && SortedBy(b, key)
    requires KeysDistinct(a, key)
    requires multiset(a) == multiset(b)
    ensures a == b
    decreases |a|
  {
    assert |b| == |multiset(b)| == |multiset(a)| == |a|;
    if a != [] {
      HeadsEqual(a, b, key);
      MultisetTail(a, b);
      SortedTail(a, key);
      SortedTailOf(b, key);
      SortedUnique(a[1..], b[1..], key);
      assert a == [a[0]] + a[1..] && b == [b[0]] + b[1..];
    }
  }

  // ---------------------------------------------------------------------------
  // Distinct elements, and the sorted listing of a set of names

  /** The identity key: sort names by themselves. */
  function Id(s: string): string { s }

  /** In a sequence whose keys are distinct every element occurs once. */
  lemma {:induction false} DistinctCounts<T>(s: seq<T>, key: T -> string, x: T)
    requires KeysDistinct(s, key)
    ensures multiset(s)[x] == if x in s then 1 else 0
    decreases |s|
  {
    if s != [] {
      assert s == [s[0]] + s[1..];
      assert multiset(s) == multiset{s[0]} + multiset(s[1..]);
      assert KeysDistinct(s[1..], key) by {
        forall i, j | 0 <= i < j < |s[1..]| ensures key(s[1..][i]) != key(s[1..][j]) {
          assert s[1..][i] == s[i + 1] && s[1..][j] == s[j + 1];
        }
      }
      DistinctCounts(s[1..], key, x);
      if s[0] in s[1..] {
        var k :| 0 <= k < |s[1..]| && s[1..][k] == s[0];
        assert s[k + 1] == s[0];
      }
    }
  }

  /** Two positions holding the same element make it occur at least twice. */
  lemma TwoOccurrences<T>(s: seq<T>, i: nat, j: nat)
    requires i < j < |s| && s[i] == s[j]
    ensures multiset(s)[s[i]] >= 2
  {
    assert s == s[..j] + s[j..];
    assert multiset(s) == multiset(s[..j]) + multiset(s[j..]);
    assert s[i] == s[..j][i];
    assert s[j] == s[j..][0];
  }

  /** A permutation of a sequence with distinct keys has distinct keys. */
  lemma PermutationKeepsKeysDistinct<T>(a: seq<T>, b: seq<T>, key: T -> string)
    requires multiset(a) == multiset(b) && KeysDistinct(a, key)
    ensures KeysDistinct(b, key)
  {
    forall i, j | 0 <= i < j < |b| ensures key(b[i]) != key(b[j]) {
      if key(b[i]) == key(b[j]) {
        assert b[i] in multiset(a) && b[j] in multiset(a);
        var p :| 0 <= p < |a| && a[p] == b[i];
        var q :| 0 <= q < |a| && a[q] == b[j];
        if p == q {
          TwoOccurrences(b, i, j);
          DistinctCounts(a, key, b[i]);
          assert false;
        } else {
          assert false;
        }
      }
    }
  }

  /** Two sequences of distinct elements holding the same elements are permutations of each other. */
  lemma SameElementsSameMultiset<T>(a: seq<T>, b: seq<T>, key: T -> string)
    requires KeysDistinct(a, key) && KeysDistinct(b, key)
    requires forall x :: x in a <==> x in b
    ensures multiset(a) == multiset(b)
  {
    forall x ensures multiset(a)[x] == multiset(b)[x] {
      DistinctCounts(a, key, x);
      DistinctCounts(b, key, x);
    }
  }

  /** The elements of a finite set in some order, each once. */
  ghost function SetToSeq(names: set<string>): (s: seq<string>)
    ensures KeysDistinct(s, Id) && forall n :: n in s <==> n in names
    decreases |names|
  {
    if names == {} then []
    else
      var n :| n in names;
      var rest := SetToSeq(names - {n});
      assert KeysDistinct([n] + rest, Id) by {
        forall i, j | 0 <= i < j < |[n] + rest| ensures ([n] + rest)[i] != ([n] + rest)[j] {
          if i > 0 { assert ([n] + rest)[i] == rest[i - 1]; }
          assert ([n] + rest)[j] == rest[j - 1];
        }
      }
      [n] + rest
  }

  /** The names of a set in ascending code-point order: what `sorted` makes of any listing of them. */
  ghost function SortedNames(names: set<string>): (s: seq<string>)
    ensures SortedBy(s, Id) && KeysDistinct(s, Id)
    ensures forall n :: n in s <==> n in names
  {
    var r := SortBy(SetToSeq(names), Id);
    PermutationKeepsKeysDistinct(SetToSeq(names), r, Id);
    assert forall n :: n in r <==> n in multiset(SetToSeq(names));
    r
  }

  /** A sorted, duplicate-free sequence holding exactly `names` is their sorted listing. */
  lemma SortedNamesOfSorted(s: seq<string>, names: set<string>)
    requires SortedBy(s, Id) && KeysDistinct(s, Id) && forall n :: n in s <==> n in names
    ensures SortedNames(names) == s
  {
    var b := SortedNames(names);
    SameElementsSameMultiset(s, b, Id);
    SortedUnique(s, b, Id);
  }

  /**
   * However a directory lists its names, sorting the listing gives the
   * same sequence: `sorted(os.listdir(d))` does not depend on the order of
   * the listing.
   */
  lemma SortedListingIsUnique(listing: seq<string>, names: set<string>)
    requires KeysDistinct(listing, Id) && forall n :: n in listing <==> n in names
    ensures SortBy(listing, Id) == SortedNames(names)
  {
    var a := SortBy(listing, Id);
    var b := SortedNames(names);
    PermutationKeepsKeysDistinct(listing, a, Id);
    assert forall n :: n in a <==> n in multiset(listing);
    SameElementsSameMultiset(a, b, Id);
    SortedUnique(a, b, Id);
  }
}
