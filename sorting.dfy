/** `list.sort(key=...)` with a str key: Python's sort is stable and orders keys by
    code-point lexicographic comparison. */
module StableSort {

  /** `a <= b` on Python str. */
  predicate LexLe(a: string, b: string)
    decreases |a|
  {
    a == [] || (b != [] && (a[0] < b[0] || (a[0] == b[0] && LexLe(a[1..], b[1..]))))
  }

  lemma {:induction false} LexLeReflexive(a: string)
    ensures LexLe(a, a)
    decreases |a|
  {
    if a != [] {
      LexLeReflexive(a[1..]);
    }
  }

  lemma {:induction false} LexLeTotal(a: string, b: string)
    ensures LexLe(a, b) || LexLe(b, a)
    decreases |a|
  {
    if a != [] && b != [] && a[0] == b[0] {
      LexLeTotal(a[1..], b[1..]);
    }
  }

  lemma {:induction false} LexLeTransitive(a: string, b: string, c: string)
    requires LexLe(a, b) && LexLe(b, c)
    ensures LexLe(a, c)
    decreases |a|
  {
    if a != [] && a[0] == b[0] && b[0] == c[0] {
      LexLeTransitive(a[1..], b[1..], c[1..]);
    }
  }

  lemma {:induction false} LexLeAntisymmetric(a: string, b: string)
    requires LexLe(a, b) && LexLe(b, a)
    ensures a == b
    decreases |a|
  {
    if a != [] {
      LexLeAntisymmetric(a[1..], b[1..]);
      assert a == [a[0]] + a[1..] && b == [b[0]] + b[1..];
    }
  }

  ghost predicate SortedBy<T>(key: T -> string, s: seq<T>)
  {
    forall i, j :: 0 <= i < j < |s| ==> LexLe(key(s[i]), key(s[j]))
  }

  /** Every element of `s` has a key at most `bound`. */
  ghost predicate KeysAtMost<T>(key: T -> string, s: seq<T>, bound: string)
  {
    forall i :: 0 <= i < |s| ==> LexLe(key(s[i]), bound)
  }

  /** The elements of `s` whose key is `k`, in their order in `s`. */
  function WithKey<T>(key: T -> string, s: seq<T>, k: string): seq<T>
    decreases |s|
  {
    if s == [] then []
    else WithKey(key, s[..|s| - 1], k) + (if key(s[|s| - 1]) == k then [s[|s| - 1]] else [])
  }

  /** Places `x` after every element whose key is at most `key(x)`. */
  function Insert<T>(key: T -> string, t: seq<T>, x: T): seq<T>
    decreases |t|
  {
    if t == [] then [x]
    else if LexLe(key(t[|t| - 1]), key(x)) then t + [x]
    else Insert(key, t[..|t| - 1], x) + [t[|t| - 1]]
  }

  /** Stable insertion sort by key. */
  function SortBy<T>(key: T -> string, s: seq<T>): seq<T>
    decreases |s|
  {
    if s == [] then [] else Insert(key, SortBy(key, s[..|s| - 1]), s[|s| - 1])
  }

  lemma {:induction false} InsertKeepsBound<T>(key: T -> string, t: seq<T>, x: T, bound: string)
    requires KeysAtMost(key, t, bound) && LexLe(key(x), bound)
    ensures KeysAtMost(key, Insert(key, t, x), bound)
    decreases |t|
  {
    if t != [] && !LexLe(key(t[|t| - 1]), key(x)) {
      InsertKeepsBound(key, t[..|t| - 1], x, bound);
    }
  }

  lemma {:induction false} InsertSorted<T>(key: T -> string, t: seq<T>, x: T)
    requires SortedBy(key, t)
    ensures SortedBy(key, Insert(key, t, x))
    decreases |t|
  {
    if t != [] {
      var y := t[|t| - 1];
      var t' := t[..|t| - 1];
      if LexLe(key(y), key(x)) {
        forall i | 0 <= i < |t| ensures LexLe(key(t[i]), key(x)) {
          if i < |t| - 1 {
            LexLeTransitive(key(t[i]), key(y), key(x));
          }
        }
      } else {
        LexLeTotal(key(x), key(y));
        InsertSorted(key, t', x);
        assert KeysAtMost(key, t', key(y));
        InsertKeepsBound(key, t', x, key(y));
      }
    }
  }

  lemma {:induction false} InsertWithKey<T>(key: T -> string, t: seq<T>, x: T, k: string)
    ensures WithKey(key, Insert(key, t, x), k) ==
      WithKey(key, t, k) + (if key(x) == k then [x] else [])
    decreases |t|
  {
    if t == [] {
      assert [x][..0] == [];
    } else {
      var y := t[|t| - 1];
      var t' := t[..|t| - 1];
      if LexLe(key(y), key(x)) {
        assert (t + [x])[..|t|] == t;
      } else {
        var ins := Insert(key, t', x);
        assert (ins + [y])[..|ins|] == ins;
        InsertWithKey(key, t', x, k);
        LexLeReflexive(key(x));
        assert key(y) != key(x);
      }
    }
  }

  lemma {:induction false} InsertMultiset<T>(key: T -> string, t: seq<T>, x: T)
    ensures multiset(Insert(key, t, x)) == multiset(t) + multiset{x}
    decreases |t|
  {
    if t != [] {
      var t' := t[..|t| - 1];
      assert t == t' + [t[|t| - 1]];
      if !LexLe(key(t[|t| - 1]), key(x)) {
        InsertMultiset(key, t', x);
      }
    }
  }

  /** The sorted list is in ascending key order. */
  lemma {:induction false} SortBySorted<T>(key: T -> string, s: seq<T>)
    ensures SortedBy(key, SortBy(key, s))
    decreases |s|
  {
    if s != [] {
      SortBySorted(key, s[..|s| - 1]);
      InsertSorted(key, SortBy(key, s[..|s| - 1]), s[|s| - 1]);
    }
  }

  /** Elements with equal keys keep their original relative order (stability). */
  lemma {:induction false} SortByStable<T>(key: T -> string, s: seq<T>, k: string)
    ensures WithKey(key, SortBy(key, s), k) == WithKey(key, s, k)
    decreases |s|
  {
    if s != [] {
      SortByStable(key, s[..|s| - 1], k);
      InsertWithKey(key, SortBy(key, s[..|s| - 1]), s[|s| - 1], k);
    }
  }

  /** The sorted list is a permutation of the input. */
  lemma {:induction false} SortByPermutation<T>(key: T -> string, s: seq<T>)
    ensures multiset(SortBy(key, s)) == multiset(s)
    decreases |s|
  {
    if s != [] {
      var init := s[..|s| - 1];
      SortByPermutation(key, init);
      InsertMultiset(key, SortBy(key, init), s[|s| - 1]);
      assert s == init + [s[|s| - 1]];
    }
  }

  /** Sortedness, stability and permutation pin the result down: any list with these
      three properties is the one `SortBy` gives. */
  lemma {:induction false} SortedStableIsUnique<T>(key: T -> string, s: seq<T>, r: seq<T>)
    requires SortedBy(key, r)
    requires forall k :: WithKey(key, r, k) == WithKey(key, s, k)
    ensures r == SortBy(key, s)
  {
    SortBySorted(key, s);
    forall k ensures WithKey(key, r, k) == WithKey(key, SortBy(key, s), k) {
      SortByStable(key, s, k);
    }
    SortedStableAgree(key, r, SortBy(key, s));
  }

  /** Two key-sorted lists with the same elements per key are equal. */
  lemma {:induction false} SortedStableAgree<T>(key: T -> string, a: seq<T>, b: seq<T>)
    requires SortedBy(key, a) && SortedBy(key, b)
    requires forall k :: WithKey(key, a, k) == WithKey(key, b, k)
    ensures a == b
    decreases |a| + |b|
  {
    EmptyIffNoKeys(key, a);
    EmptyIffNoKeys(key, b);
    if a != [] && b != [] {
      var x, y := a[|a| - 1], b[|b| - 1];
      var a', b' := a[..|a| - 1], b[..|b| - 1];
      LastKeysEqual(key, a, b);
      var k := key(x);
      assert WithKey(key, a, k) == WithKey(key, a', k) + [x];
      assert WithKey(key, b, k) == WithKey(key, b', k) + [y];
      assert WithKey(key, a, k)[|WithKey(key, a, k)| - 1] == x;
      assert WithKey(key, b, k)[|WithKey(key, b, k)| - 1] == y;
      forall k' ensures WithKey(key, a', k') == WithKey(key, b', k') {
        if k' != k {
          assert WithKey(key, a, k') == WithKey(key, a', k');
          assert WithKey(key, b, k') == WithKey(key, b', k');
        } else {
          assert WithKey(key, a, k')[..|WithKey(key, a, k')| - 1] == WithKey(key, a', k');
        }
      }
      SortedStableAgree(key, a', b');
      assert a == a' + [x] && b == b' + [y];
    }
  }

  lemma EmptyIffNoKeys<T>(key: T -> string, s: seq<T>)
    ensures s == [] <==> forall k :: WithKey(key, s, k) == []
  {
    if s != [] {
      WithKeyMember(key, s, |s| - 1);
    }
  }

  /** Every element of a list shows up under its own key. */
  lemma {:induction false} WithKeyMember<T>(key: T -> string, s: seq<T>, i: nat)
    requires i < |s|
    ensures WithKey(key, s, key(s[i])) != []
    decreases |s|
  {
    if i < |s| - 1 {
      WithKeyMember(key, s[..|s| - 1], i);
    }
  }

  /** Two sorted lists with the same elements per key end with keys that are equal. */
  lemma LastKeysEqual<T>(key: T -> string, a: seq<T>, b: seq<T>)
    requires a != [] && b != []
    requires SortedBy(key, a) && SortedBy(key, b)
    requires forall k :: WithKey(key, a, k) == WithKey(key, b, k)
    ensures key(a[|a| - 1]) == key(b[|b| - 1])
  {
    var ka, kb := key(a[|a| - 1]), key(b[|b| - 1]);
    WithKeyMember(key, a, |a| - 1);
    WithKeyMember(key, b, |b| - 1);
    // some element of b has key ka, so ka <= kb; symmetrically kb <= ka
    assert LexLe(ka, kb) by {
      KeyFound(key, b, ka, WithKey(key, a, ka));
      var j :| 0 <= j < |b| && key(b[j]) == ka;
      if j < |b| - 1 { assert LexLe(key(b[j]), key(b[|b| - 1])); } else { LexLeReflexive(ka); }
    }
    assert LexLe(kb, ka) by {
      KeyFound(key, a, kb, WithKey(key, b, kb));
      var j :| 0 <= j < |a| && key(a[j]) == kb;
      if j < |a| - 1 { assert LexLe(key(a[j]), key(a[|a| - 1])); } else { LexLeReflexive(kb); }
    }
    LexLeAntisymmetric(ka, kb);
  }

  /** A nonempty `WithKey` for `k` means some element has key `k`. */
  lemma {:induction false} KeyFound<T>(key: T -> string, s: seq<T>, k: string, w: seq<T>)
    requires w == WithKey(key, s, k) && w != []
    ensures exists j :: 0 <= j < |s| && key(s[j]) == k
    decreases |s|
  {
    if key(s[|s| - 1]) != k {
      var init := s[..|s| - 1];
      KeyFound(key, init, k, WithKey(key, init, k));
      var j :| 0 <= j < |init| && key(init[j]) == k;
      assert key(s[j]) == k;
    }
  }
}
