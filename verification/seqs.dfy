/** Sequence operations shared by the derivation code: `Array.prototype.filter`
    (`Keep`), subsequences, and `Array.prototype.sort`, which is stable, for
    comparators that compare a fixed lexicographic sort key. */
module Seqs {
  import Text

  /** `s.filter(f)`: the elements of `s` that satisfy `f`, in their order. */
  function Keep<T>(s: seq<T>, f: T -> bool): (r: seq<T>)
    ensures |r| <= |s|
    ensures forall x :: x in r ==> x in s && f(x)
    ensures forall i :: 0 <= i < |s| && f(s[i]) ==> s[i] in r
    decreases |s|
  {
    if |s| == 0 then []
    else if f(s[0]) then [s[0]] + Keep(s[1..], f)
    else Keep(s[1..], f)
  }

  function Not<T>(f: T -> bool): T -> bool {
    x => !f(x)
  }

  function And<T>(f: T -> bool, g: T -> bool): T -> bool {
    x => f(x) && g(x)
  }

  /** `a` is obtained from `b` by deleting elements. */
  predicate IsSubseq<T(==)>(a: seq<T>, b: seq<T>)
    decreases |b|
  {
    |a| == 0 || (|b| > 0 && (if a[0] == b[0] then IsSubseq(a[1..], b[1..]) else IsSubseq(a, b[1..])))
  }

  lemma {:induction false} SubseqRefl<T>(a: seq<T>)
    ensures IsSubseq(a, a)
    decreases |a|
  {
    if |a| > 0 {
      SubseqRefl(a[1..]);
    }
  }

  /** Dropping the head of the candidate keeps it a subsequence. */
  lemma {:induction false} SubseqTail<T>(a: seq<T>, b: seq<T>)
    requires |a| > 0 && IsSubseq(a, b)
    ensures IsSubseq(a[1..], b)
    decreases |b|, 1
  {
    if a[0] == b[0] {
      SubseqSkip(a[1..], b);
    } else {
      SubseqTail(a, b[1..]);
      SubseqSkip(a[1..], b);
    }
  }

  /** A subsequence of the tail is a subsequence of the whole. */
  lemma {:induction false} SubseqSkip<T>(a: seq<T>, b: seq<T>)
    requires |b| > 0 && IsSubseq(a, b[1..])
    ensures IsSubseq(a, b)
    decreases |b|, 0
  {
    if |a| > 0 && a[0] == b[0] {
      SubseqTail(a, b[1..]);
    }
  }

  lemma {:induction false} SubseqTrans<T>(a: seq<T>, b: seq<T>, c: seq<T>)
    requires IsSubseq(a, b) && IsSubseq(b, c)
    ensures IsSubseq(a, c)
    decreases |c|
  {
    if |a| > 0 {
      if b[0] == c[0] {
        if a[0] == b[0] {
          SubseqTrans(a[1..], b[1..], c[1..]);
        } else {
          SubseqTrans(a, b[1..], c[1..]);
        }
      } else {
        SubseqTrans(a, b, c[1..]);
        SubseqSkip(a, c);
      }
    }
  }

  /** A permutation has the same members. */
  lemma SameMembers<T>(a: seq<T>, b: seq<T>)
    requires multiset(a) == multiset(b)
    ensures forall x :: x in a <==> x in b
  {
    forall x ensures x in a <==> x in b {
      assert x in a <==> x in multiset(a);
      assert x in b <==> x in multiset(b);
    }
  }

  /** The members of a filtered sequence are the members meeting the test. */
  lemma KeepMembers<T>(s: seq<T>, f: T -> bool)
    ensures forall x :: x in Keep(s, f) <==> x in s && f(x)
  {
    forall x | x in s && f(x) ensures x in Keep(s, f) {
      var i :| 0 <= i < |s| && s[i] == x;
    }
  }

  lemma {:induction false} KeepIsSubseq<T>(s: seq<T>, f: T -> bool)
    ensures IsSubseq(Keep(s, f), s)
    decreases |s|
  {
    if |s| > 0 {
      KeepIsSubseq(s[1..], f);
      var r := Keep(s, f);
      if f(s[0]) {
        assert r[0] == s[0] && r[1..] == Keep(s[1..], f);
      } else {
        SubseqSkip(r, s);
      }
    }
  }

  /** A filter that keeps everything is the identity. */
  lemma {:induction false} KeepAll<T>(s: seq<T>, f: T -> bool)
    requires forall i :: 0 <= i < |s| ==> f(s[i])
    ensures Keep(s, f) == s
    decreases |s|
  {
    if |s| > 0 {
      KeepAll(s[1..], f);
      assert s == [s[0]] + s[1..];
    }
  }

  /** A filter that keeps nothing yields the empty sequence. */
  lemma {:induction false} KeepNone<T>(s: seq<T>, f: T -> bool)
    requires forall i :: 0 <= i < |s| ==> !f(s[i])
    ensures Keep(s, f) == []
    decreases |s|
  {
    if |s| > 0 {
      KeepNone(s[1..], f);
    }
  }

  /** Filtering distributes over concatenation. */
  lemma {:induction false} KeepConcat<T>(a: seq<T>, b: seq<T>, f: T -> bool)
    ensures Keep(a + b, f) == Keep(a, f) + Keep(b, f)
    decreases |a|
  {
    if |a| == 0 {
      assert a + b == b;
    } else {
      assert (a + b)[0] == a[0];
      assert (a + b)[1..] == a[1..] + b;
      KeepConcat(a[1..], b, f);
    }
  }

  /** Two filters in a row keep exactly what their conjunction keeps. */
  lemma {:induction false} KeepKeep<T>(s: seq<T>, f: T -> bool, g: T -> bool)
    ensures Keep(Keep(s, f), g) == Keep(s, And(f, g))
    decreases |s|
  {
    if |s| > 0 {
      KeepKeep(s[1..], f, g);
      if f(s[0]) {
        assert Keep(s, f) == [s[0]] + Keep(s[1..], f);
        assert Keep(s, f)[1..] == Keep(s[1..], f);
      }
    }
  }

  /** The order of two filters does not change the result. */
  lemma KeepCommute<T>(s: seq<T>, f: T -> bool, g: T -> bool)
    ensures Keep(Keep(s, f), g) == Keep(Keep(s, g), f)
  {
    KeepKeep(s, f, g);
    KeepKeep(s, g, f);
    KeepExt(s, And(f, g), And(g, f));
  }

  /** Filters with pointwise-equal predicates agree. */
  lemma {:induction false} KeepExt<T>(s: seq<T>, f: T -> bool, g: T -> bool)
    requires forall x :: f(x) == g(x)
    ensures Keep(s, f) == Keep(s, g)
    decreases |s|
  {
    if |s| > 0 {
      KeepExt(s[1..], f, g);
    }
  }

  /** A filter applied only under a condition is the filter by "the condition
      is off, or the predicate holds". */
  lemma KeepGuarded<T>(s: seq<T>, cond: bool, f: T -> bool, g: T -> bool)
    requires forall x :: g(x) == (!cond || f(x))
    ensures (if cond then Keep(s, f) else s) == Keep(s, g)
  {
    if cond {
      KeepExt(s, f, g);
    } else {
      KeepAll(s, g);
    }
  }

  /** A predicate and its negation split a sequence without loss or overlap. */
  /** A filter keeps every copy of a value that meets the test and no copy
      of one that does not. */
  lemma {:induction false} KeepCount<T>(s: seq<T>, f: T -> bool)
    ensures forall x :: multiset(Keep(s, f))[x] == if f(x) then multiset(s)[x] else 0
    decreases |s|
  {
    if |s| > 0 {
      KeepCount(s[1..], f);
      assert s == [s[0]] + s[1..];
    }
  }

  lemma {:induction false} KeepSplit<T>(s: seq<T>, f: T -> bool)
    ensures multiset(Keep(s, f)) + multiset(Keep(s, Not(f))) == multiset(s)
    ensures |Keep(s, f)| + |Keep(s, Not(f))| == |s|
    decreases |s|
  {
    if |s| > 0 {
      KeepSplit(s[1..], f);
      assert s == [s[0]] + s[1..];
    }
  }

  /** The sort key every comparator in the frontend reduces to: two numbers
      and a name, compared lexicographically. */
  datatype Key = Key(first: real, second: real, name: string)

  /** `a` sorts no later than `b`. */
  predicate KeyLe(a: Key, b: Key) {
    a.first < b.first
    || (a.first == b.first && (a.second < b.second || (a.second == b.second && Text.StrLe(a.name, b.name))))
  }

  lemma KeyLeRefl(a: Key)
    ensures KeyLe(a, a)
  {
    Text.StrLeRefl(a.name);
  }

  lemma KeyLeTotal(a: Key, b: Key)
    ensures KeyLe(a, b) || KeyLe(b, a)
  {
    Text.StrLeTotal(a.name, b.name);
  }

  lemma KeyLeTransitive(a: Key, b: Key, c: Key)
    requires KeyLe(a, b) && KeyLe(b, c)
    ensures KeyLe(a, c)
  {
    if Text.StrLe(a.name, b.name) && Text.StrLe(b.name, c.name) {
      Text.StrLeTransitive(a.name, b.name, c.name);
    }
  }

  lemma KeyLeAntisymmetric(a: Key, b: Key)
    requires KeyLe(a, b) && KeyLe(b, a)
    ensures a == b
  {
    Text.StrLeAntisymmetric(a.name, b.name);
  }

  /** Every element sorts no later than every later element. */
  ghost predicate SortedBy<T>(s: seq<T>, key: T -> Key) {
    forall i, j :: 0 <= i < j < |s| ==> KeyLe(key(s[i]), key(s[j]))
  }

  /** Selects the elements whose key equals `k`. */
  function SameKey<T>(key: T -> Key, k: Key): T -> bool {
    x => key(x) == k
  }

  /** Places `x` after every element that does not sort after it. */
  function Insert<T>(s: seq<T>, x: T, key: T -> Key): (r: seq<T>)
    ensures multiset(r) == multiset(s) + multiset{x}
    ensures |r| == |s| + 1
    decreases |s|
  {
    if |s| == 0 then [x]
    else if KeyLe(key(s[0]), key(x)) then
      assert s == [s[0]] + s[1..];
      [s[0]] + Insert(s[1..], x, key)
    else [x] + s
  }

  /** Stable insertion sort by `key`, the result `Array.prototype.sort`
      produces for a comparator that orders by `key`. */
  function SortBy<T>(s: seq<T>, key: T -> Key): (r: seq<T>)
    ensures multiset(r) == multiset(s)
    ensures |r| == |s|
    decreases |s|
  {
    if |s| == 0 then []
    else
      assert s == s[..|s| - 1] + [s[|s| - 1]];
      Insert(SortBy(s[..|s| - 1], key), s[|s| - 1], key)
  }

  lemma {:induction false} InsertSorted<T>(s: seq<T>, x: T, key: T -> Key)
    requires SortedBy(s, key)
    ensures SortedBy(Insert(s, x, key), key)
    decreases |s|
  {
    var r := Insert(s, x, key);
    if |s| > 0 {
      if KeyLe(key(s[0]), key(x)) {
        InsertSorted(s[1..], x, key);
        var t := Insert(s[1..], x, key);
        assert r == [s[0]] + t;
        forall j | 0 < j < |r| ensures KeyLe(key(r[0]), key(r[j])) {
          assert r[j] == t[j - 1];
          assert r[j] in multiset(s[1..]) + multiset{x} by {
            assert r[j] in multiset(t);
          }
          if r[j] == x {
          } else {
            assert r[j] in s[1..];
            var m :| 0 <= m < |s[1..]| && s[1..][m] == r[j];
            assert s[m + 1] == r[j];
          }
        }
      } else {
        KeyLeTotal(key(s[0]), key(x));
        forall i, j | 0 <= i < j < |r| ensures KeyLe(key(r[i]), key(r[j])) {
          if i == 0 {
            assert r[j] == s[j - 1];
            if j - 1 > 0 {
              KeyLeTransitive(key(x), key(s[0]), key(s[j - 1]));
            }
          } else {
            assert r[i] == s[i - 1] && r[j] == s[j - 1];
          }
        }
      }
    }
  }

  lemma {:induction false} SortBySorted<T>(s: seq<T>, key: T -> Key)
    ensures SortedBy(SortBy(s, key), key)
    decreases |s|
  {
    if |s| > 0 {
      SortBySorted(s[..|s| - 1], key);
      InsertSorted(SortBy(s[..|s| - 1], key), s[|s| - 1], key);
    }
  }

  /** In a sorted sequence whose head sorts strictly after `k`, no element has key `k`. */
  lemma AllAbove<T>(s: seq<T>, key: T -> Key, k: Key)
    requires SortedBy(s, key) && |s| > 0 && !KeyLe(key(s[0]), k)
    ensures Keep(s, SameKey(key, k)) == []
  {
    forall i | 0 <= i < |s| ensures key(s[i]) != k {
      if i > 0 {
        assert KeyLe(key(s[0]), key(s[i]));
      } else {
        KeyLeRefl(key(s[0]));
      }
    }
    KeepNone(s, SameKey(key, k));
  }

  /** Inserting `x` into a sorted sequence appends it to the elements of its
      own key and leaves every other key's elements alone. */
  lemma {:induction false} InsertStable<T>(s: seq<T>, x: T, key: T -> Key, k: Key)
    requires SortedBy(s, key)
    ensures Keep(Insert(s, x, key), SameKey(key, k))
         == Keep(s, SameKey(key, k)) + (if key(x) == k then [x] else [])
    decreases |s|
  {
    var f := SameKey(key, k);
    if |s| == 0 {
    } else if KeyLe(key(s[0]), key(x)) {
      assert SortedBy(s[1..], key) by {
        forall i, j | 0 <= i < j < |s[1..]| ensures KeyLe(key(s[1..][i]), key(s[1..][j])) {
          assert s[1..][i] == s[i + 1] && s[1..][j] == s[j + 1];
        }
      }
      InsertStable(s[1..], x, key, k);
      assert Insert(s, x, key) == [s[0]] + Insert(s[1..], x, key);
      KeepConcat([s[0]], Insert(s[1..], x, key), f);
      KeepConcat([s[0]], s[1..], f);
      assert [s[0]] + s[1..] == s;
    } else {
      if key(x) == k {
        AllAbove(s, key, k);
      }
      KeepConcat([x], s, f);
    }
  }

  /** Filtering a one-element sequence. */
  lemma KeepSingle<T>(x: T, f: T -> bool)
    ensures Keep([x], f) == if f(x) then [x] else []
  {
    assert [x][1..] == [];
  }

  /** The sort is stable: the elements sharing any one key keep their input order. */
  lemma {:induction false} SortByStable<T>(s: seq<T>, key: T -> Key, k: Key)
    ensures Keep(SortBy(s, key), SameKey(key, k)) == Keep(s, SameKey(key, k))
    decreases |s|
  {
    if |s| > 0 {
      var f := SameKey(key, k);
      var init, x := s[..|s| - 1], s[|s| - 1];
      var tail := if key(x) == k then [x] else [];
      var sorted := SortBy(init, key);
      SortBySorted(init, key);
      assert s == init + [x];
      assert SortBy(s, key) == Insert(sorted, x, key);
      InsertStable(sorted, x, key, k);
      SortByStable(init, key, k);
      KeepSingle(x, f);
      assert Keep([x], f) == tail;
      KeepConcat(init, [x], f);
    }
  }
}
