/** Sort keys as integer sequences under the lexicographic order, and the lowest keys of a table. */
module Ordering {

  /** Strict lexicographic order: a proper prefix comes first. */
  predicate LexLess(a: seq<int>, b: seq<int>)
    decreases |a|
  {
    if b == [] then false
    else if a == [] then true
    else a[0] < b[0] || (a[0] == b[0] && LexLess(a[1..], b[1..]))
  }

  lemma {:induction false} LexTrichotomy(a: seq<int>, b: seq<int>)
    ensures a == b || LexLess(a, b) || LexLess(b, a)
    ensures !(LexLess(a, b) && LexLess(b, a))
    ensures LexLess(a, b) ==> a != b
    decreases |a|
  {
    if a != [] && b != [] {
      LexTrichotomy(a[1..], b[1..]);
      assert a == [a[0]] + a[1..] && b == [b[0]] + b[1..];
    }
  }

  lemma {:induction false} LexTransitive(a: seq<int>, b: seq<int>, c: seq<int>)
    requires LexLess(a, b) && LexLess(b, c)
    ensures LexLess(a, c)
    decreases |a|
  {
    if a != [] && a[0] == b[0] == c[0] {
      LexTransitive(a[1..], b[1..], c[1..]);
    }
  }

  /** The code points of a string: strings compare as these sequences do. */
  function Codes(s: string): seq<int> {
    seq(|s|, i requires 0 <= i < |s| => s[i] as int)
  }

  lemma CodesInjective(a: string, b: string)
    requires Codes(a) == Codes(b)
    ensures a == b
  {
    forall i | 0 <= i < |a| ensures a[i] == b[i] {
      assert Codes(a)[i] == Codes(b)[i];
    }
  }

  /** The order of strings: a proper prefix comes first, else the first place where they differ decides. */
  ghost predicate ComesBefore(a: string, b: string) {
    exists n: nat :: n <= |a| && n < |b| && a[..n] == b[..n] && (n == |a| || (n < |a| && a[n] < b[n]))
  }

  lemma {:induction false} CodesCons(s: string)
    requires s != ""
    ensures Codes(s)[0] == s[0] as int && Codes(s)[1..] == Codes(s[1..])
  {
  }

  /** Codes order as their strings do. */
  lemma {:induction false} CodesOrder(a: string, b: string)
    ensures LexLess(Codes(a), Codes(b)) <==> ComesBefore(a, b)
    decreases |a|
  {
    if b == "" {
    } else if a == "" {
      assert a[..0] == b[..0];
    } else {
      CodesCons(a);
      CodesCons(b);
      CodesOrder(a[1..], b[1..]);
      BeforeCons(a, b);
    }
  }

  lemma BeforeCons(a: string, b: string)
    requires a != "" && b != ""
    ensures ComesBefore(a, b) <==> a[0] < b[0] || (a[0] == b[0] && ComesBefore(a[1..], b[1..]))
  {
    if a[0] < b[0] {
      assert a[..0] == b[..0];
    }
    if a[0] == b[0] && ComesBefore(a[1..], b[1..]) {
      var x, y := a[1..], b[1..];
      var n: nat :| n <= |x| && n < |y| && x[..n] == y[..n] && (n == |x| || (n < |x| && x[n] < y[n]));
      assert a[..n + 1] == [a[0]] + x[..n] && b[..n + 1] == [b[0]] + y[..n];
    }
    if ComesBefore(a, b) {
      var n: nat :| n <= |a| && n < |b| && a[..n] == b[..n] && (n == |a| || (n < |a| && a[n] < b[n]));
      if n > 0 {
        assert a[0] == a[..n][0] == b[..n][0] == b[0];
        assert a[1..][..n - 1] == a[..n][1..] && b[1..][..n - 1] == b[..n][1..];
      }
    }
  }

  // ----- The lowest entries of a table of keys -----

  ghost predicate DistinctKeys<K(!new)>(keys: map<K, seq<int>>) {
    forall x, y :: x in keys && y in keys && x != y ==> keys[x] != keys[y]
  }

  /** `low` holds n entries, each ordered before every entry outside it. */
  ghost predicate IsLowest<K(!new)>(keys: map<K, seq<int>>, low: set<K>, n: nat) {
    && low <= keys.Keys
    && |low| == n
    && forall x, y :: x in low && y in keys && y !in low ==> LexLess(keys[x], keys[y])
  }

  lemma ProperSubsetIsSmaller<K(!new)>(a: set<K>, b: set<K>)
    requires a < b
    ensures |a| < |b|
  {
    assert |b| == |a| + |b - a|;
  }

  lemma EqualSizes<K(!new)>(a: set<K>, b: set<K>, x: K)
    requires |a| == |b| && x in a && x !in b
    ensures exists y :: y in b && y !in a
  {
    if b <= a {
      ProperSubsetIsSmaller(b, a);
    }
  }

  /** There is at most one such set, even when it is measured with another table that orders alike. */
  lemma LowestIsUnique<K(!new)>(keys: map<K, seq<int>>, other: map<K, seq<int>>, a: set<K>, b: set<K>, n: nat)
    requires IsLowest(keys, a, n) && IsLowest(other, b, n) && keys.Keys == other.Keys
    requires forall x, y :: x in keys && y in keys ==> (LexLess(keys[x], keys[y]) <==> LexLess(other[x], other[y]))
    ensures a == b
  {
    if x :| x in a && x !in b {
      EqualSizes(a, b, x);
      var y :| y in b && y !in a;
      LexTrichotomy(keys[x], keys[y]);
    }
    if a < b {
      ProperSubsetIsSmaller(a, b);
    }
  }

  lemma {:induction false} LeastExists<K(!new)>(keys: map<K, seq<int>>, among: set<K>) returns (least: K)
    requires among != {} && among <= keys.Keys && DistinctKeys(keys)
    ensures least in among && forall y :: y in among && y != least ==> LexLess(keys[least], keys[y])
    decreases among
  {
    var x :| x in among;
    least := x;
    if among != {x} {
      var rest := LeastExists(keys, among - {x});
      LexTrichotomy(keys[x], keys[rest]);
      if LexLess(keys[rest], keys[x]) {
        least := rest;
      } else {
        forall y | y in among && y != x ensures LexLess(keys[x], keys[y]) {
          if y != rest {
            LexTransitive(keys[x], keys[rest], keys[y]);
          }
        }
      }
    }
  }

  lemma {:induction false} LowestExists<K(!new)>(keys: map<K, seq<int>>, n: nat)
    requires DistinctKeys(keys) && n <= |keys|
    ensures exists low :: IsLowest(keys, low, n)
    decreases n
  {
    if n == 0 {
      assert IsLowest(keys, {}, 0);
    } else {
      LowestExists(keys, n - 1);
      var low :| IsLowest(keys, low, n - 1);
      assert |keys.Keys - low| == |keys.Keys| - |low|;
      var least := LeastExists(keys, keys.Keys - low);
      assert IsLowest(keys, low + {least}, n);
    }
  }

  ghost function Lowest<K(!new)>(keys: map<K, seq<int>>, n: nat): (low: set<K>)
    requires DistinctKeys(keys) && n <= |keys|
    ensures IsLowest(keys, low, n)
  {
    LowestExists(keys, n);
    var low :| IsLowest(keys, low, n);
    low
  }

  // ----- Sorting -----

  ghost predicate IsSorted<K(!new)>(s: seq<K>, keys: map<K, seq<int>>) {
    && (forall i :: 0 <= i < |s| ==> s[i] in keys)
    && (forall i, j :: 0 <= i < j < |s| ==> LexLess(keys[s[i]], keys[s[j]]))
  }

  /** Puts `x` before the first entry it is ordered before. */
  function Insert<K(==, !new)>(s: seq<K>, x: K, keys: map<K, seq<int>>): (t: seq<K>)
    requires x in keys && forall i :: 0 <= i < |s| ==> s[i] in keys
    ensures |t| == |s| + 1
    ensures forall y :: y in t <==> y == x || y in s
  {
    if s == [] then [x]
    else if LexLess(keys[x], keys[s[0]]) then [x] + s
    else [s[0]] + Insert(s[1..], x, keys)
  }

  lemma {:induction false} InsertSorts<K(!new)>(s: seq<K>, x: K, keys: map<K, seq<int>>)
    requires x in keys && IsSorted(s, keys) && DistinctKeys(keys) && x !in s
    ensures IsSorted(Insert(s, x, keys), keys)
    decreases |s|
  {
    if s != [] {
      if LexLess(keys[x], keys[s[0]]) {
        forall j | 0 < j < |s| ensures LexLess(keys[x], keys[s[j]]) {
          LexTransitive(keys[x], keys[s[0]], keys[s[j]]);
        }
      } else {
        LexTrichotomy(keys[x], keys[s[0]]);
        InsertSorts(s[1..], x, keys);
        var t := Insert(s[1..], x, keys);
        forall j | 0 <= j < |t| ensures LexLess(keys[s[0]], keys[t[j]]) {
          assert t[j] in t;
          if t[j] != x {
            var i :| 0 <= i < |s[1..]| && s[1..][i] == t[j];
            assert s[i + 1] == t[j];
          }
        }
      }
    }
  }

  /** The entries of a table, sorted by their keys. */
  method SortedEntries<K(==, !new)>(keys: map<K, seq<int>>) returns (s: seq<K>)
    requires DistinctKeys(keys)
    ensures IsSorted(s, keys) && |s| == |keys| && forall x :: x in s <==> x in keys
  {
    s := [];
    var todo := keys.Keys;
    while todo != {}
      invariant todo <= keys.Keys && IsSorted(s, keys) && |s| + |todo| == |keys|
      invariant forall x :: x in s <==> x in keys && x !in todo
      decreases todo
    {
      var x :| x in todo;
      todo := todo - {x};
      InsertSorts(s, x, keys);
      s := Insert(s, x, keys);
    }
  }

  lemma {:induction false} PrefixSize<K(!new)>(s: seq<K>, n: nat)
    requires n <= |s| && forall i, j :: 0 <= i < j < |s| ==> s[i] != s[j]
    ensures |set i | 0 <= i < n :: s[i]| == n
    decreases n
  {
    if n > 0 {
      PrefixSize(s, n - 1);
      var front := set i | 0 <= i < n - 1 :: s[i];
      assert (set i | 0 <= i < n :: s[i]) == front + {s[n - 1]};
    }
  }

  /** The first n entries of the sorted list are the n lowest. */
  lemma SortedPrefixIsLowest<K(!new)>(keys: map<K, seq<int>>, s: seq<K>, n: nat)
    requires IsSorted(s, keys) && n <= |s| && forall x :: x in s <==> x in keys
    ensures IsLowest(keys, set i | 0 <= i < n :: s[i], n)
  {
    var low := set i | 0 <= i < n :: s[i];
    forall i, j | 0 <= i < j < |s| ensures s[i] != s[j] {
      LexTrichotomy(keys[s[i]], keys[s[j]]);
    }
    PrefixSize(s, n);
    forall x, y | x in low && y in keys && y !in low ensures LexLess(keys[x], keys[y]) {
      var i :| 0 <= i < n && s[i] == x;
      var j :| 0 <= j < |s| && s[j] == y;
    }
  }

  /** Sorts the table and takes its first n entries. */
  method TakeLowest<K(==, !new)>(keys: map<K, seq<int>>, n: nat) returns (low: seq<K>)
    requires DistinctKeys(keys) && n <= |keys|
    ensures forall x :: x in low <==> x in Lowest(keys, n)
  {
    var sorted := SortedEntries(keys);
    low := sorted[..n];
    SortedPrefixIsLowest(keys, sorted, n);
    LowestIsUnique(keys, keys, set i | 0 <= i < n :: sorted[i], Lowest(keys, n), n);
    assert forall x :: x in low <==> x in set i | 0 <= i < n :: sorted[i];
  }
}
