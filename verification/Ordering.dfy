/** Byte-wise string order and what sorting by a pair of strings determines. */
module Ordering {
  predicate Less(a: string, b: string) {
    b != [] && (a == [] || a[0] < b[0] || (a[0] == b[0] && Less(a[1..], b[1..])))
  }

  /** `Less` is a strict total order. */
  lemma {:induction false} LessIsTotal(a: string, b: string)
    ensures a == b <==> !Less(a, b) && !Less(b, a)
    ensures !(Less(a, b) && Less(b, a))
  {
    if a != [] && b != [] && a[0] == b[0] {
      LessIsTotal(a[1..], b[1..]);
      assert a == [a[0]] + a[1..] && b == [b[0]] + b[1..];
    }
  }

  lemma {:induction false} LessIsTransitive(a: string, b: string, c: string)
    requires Less(a, b) && Less(b, c)
    ensures Less(a, c)
  {
    if a != [] && a[0] == b[0] && b[0] == c[0] {
      LessIsTransitive(a[1..], b[1..], c[1..]);
    }
  }

  /** `Less` is the order of dictionaries: the strings agree up to some place, where the first one ends
      or has the smaller character. */
  lemma {:induction false} LessIff(a: string, b: string)
    ensures Less(a, b) <==> exists k: nat :: FirstDiffers(a, b, k)
    decreases |a|
  {
    if a == [] {
      assert b != [] ==> FirstDiffers(a, b, 0);
    } else if b != [] {
      LessIff(a[1..], b[1..]);
      if a[0] == b[0] && Less(a[1..], b[1..]) {
        var k: nat :| FirstDiffers(a[1..], b[1..], k);
        assert a[..k + 1] == [a[0]] + a[1..][..k] && b[..k + 1] == [b[0]] + b[1..][..k];
        assert FirstDiffers(a, b, k + 1);
      } else if a[0] < b[0] {
        assert FirstDiffers(a, b, 0);
      }
      if k: nat :| FirstDiffers(a, b, k) && k > 0 {
        assert a[..k][0] == a[0] && b[..k][0] == b[0];
        assert a[1..][..k - 1] == a[..k][1..] && b[1..][..k - 1] == b[..k][1..];
        assert FirstDiffers(a[1..], b[1..], k - 1);
      }
    }
  }

  ghost predicate FirstDiffers(a: string, b: string, k: nat) {
    k <= |a| && k < |b| && a[..k] == b[..k] && (k == |a| || a[k] < b[k])
  }

  type Pair = (string, string)

  predicate PairLess(a: Pair, b: Pair) {
    if a.0 != b.0 then Less(a.0, b.0) else Less(a.1, b.1)
  }

  lemma PairLessIsTotal(a: Pair, b: Pair)
    ensures a == b <==> !PairLess(a, b) && !PairLess(b, a)
    ensures !(PairLess(a, b) && PairLess(b, a))
  {
    LessIsTotal(a.0, b.0);
    LessIsTotal(a.1, b.1);
  }

  lemma PairLessIsTransitive(a: Pair, b: Pair, c: Pair)
    requires PairLess(a, b) && PairLess(b, c)
    ensures PairLess(a, c)
  {
    LessIsTotal(a.0, b.0);
    LessIsTotal(b.0, c.0);
    if a.0 != b.0 && b.0 != c.0 {
      LessIsTransitive(a.0, b.0, c.0);
      LessIsTotal(a.0, c.0);
    } else if a.0 == b.0 == c.0 {
      LessIsTransitive(a.1, b.1, c.1);
    }
  }

  /** No element precedes one that sorts before it. */
  ghost predicate Sorted<T>(key: T -> Pair, s: seq<T>) {
    forall i, j :: 0 <= i < j < |s| ==> !PairLess(key(s[j]), key(s[i]))
  }

  /** Elements that compare equal are equal. */
  ghost predicate KeyDetermines<T>(key: T -> Pair, s: seq<T>) {
    forall x, y :: x in s && y in s && key(x) == key(y) ==> x == y
  }

  function Insert<T>(key: T -> Pair, x: T, s: seq<T>): (r: seq<T>)
    ensures multiset(r) == multiset(s) + multiset{x}
  {
    if s == [] || PairLess(key(x), key(s[0])) then [x] + s else
    assert s == [s[0]] + s[1..];
    [s[0]] + Insert(key, x, s[1..])
  }

  function Sort<T>(key: T -> Pair, s: seq<T>): (r: seq<T>)
    ensures multiset(r) == multiset(s)
  {
    if s == [] then [] else
    assert s == s[..|s| - 1] + [s[|s| - 1]];
    Insert(key, s[|s| - 1], Sort(key, s[..|s| - 1]))
  }

  lemma {:induction false} InsertSorts<T>(key: T -> Pair, x: T, s: seq<T>)
    requires Sorted(key, s)
    ensures Sorted(key, Insert(key, x, s))
  {
    if s == [] {
    } else if PairLess(key(x), key(s[0])) {
      forall j | 0 <= j < |s| ensures !PairLess(key(s[j]), key(x)) {
        PairLessIsTotal(key(x), key(s[0]));
        if PairLess(key(s[j]), key(x)) {
          PairLessIsTransitive(key(s[j]), key(x), key(s[0]));
        }
      }
    } else {
      var rest := Insert(key, x, s[1..]);
      InsertSorts(key, x, s[1..]);
      forall j | 0 <= j < |rest| ensures !PairLess(key(rest[j]), key(s[0])) {
        assert rest[j] in multiset(rest);
        assert rest[j] == x || rest[j] in s[1..];
      }
    }
  }

  lemma {:induction false} SortSorts<T>(key: T -> Pair, s: seq<T>)
    ensures Sorted(key, Sort(key, s))
  {
    if s != [] {
      SortSorts(key, s[..|s| - 1]);
      InsertSorts(key, s[|s| - 1], Sort(key, s[..|s| - 1]));
    }
  }

  /** Sorting is canonical when the keys determine the elements: one multiset has one sorted
      sequence. */
  lemma {:induction false} SortedIsUnique<T>(key: T -> Pair, a: seq<T>, b: seq<T>)
    requires Sorted(key, a) && Sorted(key, b)
    requires multiset(a) == multiset(b) && KeyDetermines(key, a)
    ensures a == b
  {
    assert |multiset(a)| == |a| && |multiset(b)| == |b|;
    if a != [] {
      SameFront(key, a, b);
      TailMultiset(a);
      TailMultiset(b);
      SortedIsUnique(key, a[1..], b[1..]);
      assert a == [a[0]] + a[1..] && b == [b[0]] + b[1..];
    }
  }

  lemma TailMultiset<T>(s: seq<T>)
    requires s != []
    ensures multiset(s[1..]) == multiset(s) - multiset{s[0]}
  {
    assert s == [s[0]] + s[1..];
  }

  lemma SameFront<T>(key: T -> Pair, a: seq<T>, b: seq<T>)
    requires a != [] && b != [] && Sorted(key, a) && Sorted(key, b)
    requires multiset(a) == multiset(b) && KeyDetermines(key, a)
    ensures a[0] == b[0]
  {
    assert a[0] in multiset(b) && b[0] in multiset(a);
    var i :| 0 <= i < |b| && b[i] == a[0];
    var j :| 0 <= j < |a| && a[j] == b[0];
    PairLessIsTotal(key(a[0]), key(b[0]));
  }

  /** And only then: two different elements with one key can be exchanged. */
  lemma ExchangeKeepsSorted<T>(key: T -> Pair, a: seq<T>, x: T, y: T) returns (b: seq<T>)
    requires Sorted(key, a) && x in a && y in a && x != y && key(x) == key(y)
    ensures Sorted(key, b) && multiset(b) == multiset(a) && b != a
  {
    var i :| 0 <= i < |a| && a[i] == x;
    var j :| 0 <= j < |a| && a[j] == y;
    b := a[i := y][j := x];
    assert b[i] != a[i];
    SameKeysSorted(key, a, b);
    ExchangeKeepsContents(a, i, j);
  }

  lemma SameKeysSorted<T>(key: T -> Pair, a: seq<T>, b: seq<T>)
    requires Sorted(key, a) && |a| == |b| && forall k :: 0 <= k < |a| ==> key(b[k]) == key(a[k])
    ensures Sorted(key, b)
  {
  }

  lemma ExchangeKeepsContents<T>(a: seq<T>, i: nat, j: nat)
    requires i < |a| && j < |a| && a[i] != a[j]
    ensures multiset(a[i := a[j]][j := a[i]]) == multiset(a)
  {
    assert multiset(a[i := a[j]]) == multiset(a) - multiset{a[i]} + multiset{a[j]};
  }
}
