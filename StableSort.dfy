/** The JavaScript `Array.prototype.sort` with a comparator, which the source
    uses twice: it is stable, so elements that compare equal keep their
    original order. It is modelled as an insertion sort by a real-valued key,
    ascending; a comparator `(a, b) => f(a) - f(b)` sorts by key `f`, and
    `(a, b) => f(b) - f(a)` by key `-f`. */
module StableSort {

  /** Every key is at most the keys after it. */
  ghost predicate Ascending<T>(s: seq<T>, key: T -> real) {
    forall i, j :: 0 <= i < j < |s| ==> key(s[i]) <= key(s[j])
  }

  /** The elements of `s` whose key is `k`, in their order in `s`. */
  function WithKey<T>(s: seq<T>, key: T -> real, k: real): (r: seq<T>)
    ensures |r| <= |s|
  {
    if s == [] then []
    else (if key(s[0]) == k then [s[0]] else []) + WithKey(s[1..], key, k)
  }

  /** Puts `x` into `s` just before the first element whose key exceeds x's,
      so after every element with an equal key. */
  function Insert<T>(x: T, s: seq<T>, key: T -> real): (r: seq<T>)
    ensures multiset(r) == multiset(s) + multiset{x}
    ensures |r| == |s| + 1
  {
    if s == [] then [x]
    else if key(x) < key(s[0]) then [x] + s
    else
      assert s == [s[0]] + s[1..];
      [s[0]] + Insert(x, s[1..], key)
  }

  /** The stable sort of `s` by ascending key. */
  function SortBy<T>(s: seq<T>, key: T -> real): (r: seq<T>)
    ensures multiset(r) == multiset(s)
    ensures |r| == |s|
  {
    if s == [] then []
    else
      assert s == s[..|s| - 1] + [s[|s| - 1]];
      Insert(s[|s| - 1], SortBy(s[..|s| - 1], key), key)
  }

  lemma {:induction false} AscendingTail<T>(s: seq<T>, key: T -> real)
    requires s != [] && Ascending(s, key)
    ensures Ascending(s[1..], key)
  {
    forall i, j | 0 <= i < j < |s| - 1
      ensures key(s[1..][i]) <= key(s[1..][j])
    {
      assert s[1..][i] == s[i + 1] && s[1..][j] == s[j + 1];
    }
  }

  /** Every key in `s` is at least `b`. */
  ghost predicate AllAtLeast<T>(s: seq<T>, key: T -> real, b: real) {
    forall i :: 0 <= i < |s| ==> b <= key(s[i])
  }

  lemma {:induction false} InsertAtLeast<T>(x: T, s: seq<T>, key: T -> real, b: real)
    requires AllAtLeast(s, key, b) && b <= key(x)
    ensures AllAtLeast(Insert(x, s, key), key, b)
  {
    if s != [] && key(x) >= key(s[0]) {
      var rest := Insert(x, s[1..], key);
      assert AllAtLeast(s[1..], key, b) by {
        forall i | 0 <= i < |s| - 1 ensures b <= key(s[1..][i]) {
          assert s[1..][i] == s[i + 1];
        }
      }
      InsertAtLeast(x, s[1..], key, b);
      var r := [s[0]] + rest;
      forall i | 0 <= i < |r| ensures b <= key(r[i]) {
        if i > 0 { assert r[i] == rest[i - 1]; }
      }
    } else if s != [] {
      var r := [x] + s;
      forall i | 0 <= i < |r| ensures b <= key(r[i]) {
        if i > 0 { assert r[i] == s[i - 1]; }
      }
    }
  }

  lemma {:induction false} InsertAscending<T>(x: T, s: seq<T>, key: T -> real)
    requires Ascending(s, key)
    ensures Ascending(Insert(x, s, key), key)
  {
    if s == [] {
    } else if key(x) < key(s[0]) {
      var r := [x] + s;
      forall i, j | 0 <= i < j < |r|
        ensures key(r[i]) <= key(r[j])
      {
        assert r[j] == s[j - 1];
        if i == 0 {
          if j > 1 { assert key(s[0]) <= key(s[j - 1]); }
        } else {
          assert r[i] == s[i - 1];
        }
      }
    } else {
      var rest := Insert(x, s[1..], key);
      AscendingTail(s, key);
      InsertAscending(x, s[1..], key);
      assert AllAtLeast(s[1..], key, key(s[0])) by {
        forall i | 0 <= i < |s| - 1 ensures key(s[0]) <= key(s[1..][i]) {
          assert s[1..][i] == s[i + 1];
        }
      }
      InsertAtLeast(x, s[1..], key, key(s[0]));
      var r := [s[0]] + rest;
      forall i, j | 0 <= i < j < |r|
        ensures key(r[i]) <= key(r[j])
      {
        assert r[j] == rest[j - 1];
        if i > 0 {
          assert r[i] == rest[i - 1];
        }
      }
    }
  }

  /** The stable sort is ascending. */
  lemma {:induction false} SortByAscending<T>(s: seq<T>, key: T -> real)
    ensures Ascending(SortBy(s, key), key)
  {
    if s != [] {
      SortByAscending(s[..|s| - 1], key);
      InsertAscending(s[|s| - 1], SortBy(s[..|s| - 1], key), key);
    }
  }

  lemma {:induction false} WithKeyAppend<T>(a: seq<T>, b: seq<T>, key: T -> real, k: real)
    ensures WithKey(a + b, key, k) == WithKey(a, key, k) + WithKey(b, key, k)
  {
    if a == [] {
      assert a + b == b;
    } else {
      var c := a + b;
      var h := if key(a[0]) == k then [a[0]] else [];
      assert c[0] == a[0];
      assert c[1..] == a[1..] + b;
      WithKeyAppend(a[1..], b, key, k);
      calc {
        WithKey(c, key, k);
        h + WithKey(c[1..], key, k);
        h + (WithKey(a[1..], key, k) + WithKey(b, key, k));
        (h + WithKey(a[1..], key, k)) + WithKey(b, key, k);
        WithKey(a, key, k) + WithKey(b, key, k);
      }
    }
  }

  lemma {:induction false} WithKeyNone<T>(s: seq<T>, key: T -> real, k: real)
    requires forall i :: 0 <= i < |s| ==> key(s[i]) != k
    ensures WithKey(s, key, k) == []
  {
    if s != [] {
      WithKeyNone(s[1..], key, k);
    }
  }

  lemma {:induction false} InsertStable<T>(x: T, s: seq<T>, key: T -> real, k: real)
    requires Ascending(s, key)
    ensures WithKey(Insert(x, s, key), key, k)
         == WithKey(s, key, k) + (if key(x) == k then [x] else [])
  {
    if s == [] {
      assert [x][1..] == [];
    } else if key(x) < key(s[0]) {
      if key(x) == k {
        forall i | 0 <= i < |s|
          ensures key(s[i]) != k
        {
          if i > 0 { assert key(s[0]) <= key(s[i]); }
        }
        WithKeyNone(s, key, k);
      }
      assert ([x] + s)[1..] == s;
    } else {
      var rest := Insert(x, s[1..], key);
      AscendingTail(s, key);
      InsertStable(x, s[1..], key, k);
      var head := if key(s[0]) == k then [s[0]] else [];
      assert ([s[0]] + rest)[1..] == rest;
      assert WithKey([s[0]] + rest, key, k) == head + WithKey(rest, key, k);
    }
  }

  lemma WithKeySnoc<T>(s: seq<T>, key: T -> real, k: real)
    requires s != []
    ensures WithKey(s, key, k)
         == WithKey(s[..|s| - 1], key, k) + (if key(s[|s| - 1]) == k then [s[|s| - 1]] else [])
  {
    var init, last := s[..|s| - 1], s[|s| - 1];
    assert s == init + [last];
    WithKeyAppend(init, [last], key, k);
    assert [last][1..] == [];
  }

  /** Stability: for every key, the elements with that key appear in the
      sorted sequence in the same order as in the input. */
  lemma {:induction false} SortByStable<T>(s: seq<T>, key: T -> real, k: real)
    ensures WithKey(SortBy(s, key), key, k) == WithKey(s, key, k)
  {
    if s != [] {
      var init, last := s[..|s| - 1], s[|s| - 1];
      WithKeySnoc(s, key, k);
      SortByStable(init, key, k);
      SortByAscending(init, key);
      InsertStable(last, SortBy(init, key), key, k);
    }
  }

  /** The first element with key `k` heads `WithKey`; `i` is its position. */
  lemma {:induction false} WithKeyHead<T>(s: seq<T>, key: T -> real, k: real, j: nat) returns (i: nat)
    requires j < |s| && key(s[j]) == k
    ensures i <= j && key(s[i]) == k
    ensures |WithKey(s, key, k)| > 0 && WithKey(s, key, k)[0] == s[i]
    ensures forall m :: 0 <= m < i ==> key(s[m]) != k
  {
    if key(s[0]) == k {
      i := 0;
    } else {
      var i' := WithKeyHead(s[1..], key, k, j - 1);
      i := i' + 1;
      assert s[1..][i'] == s[i];
      forall m | 0 <= m < i
        ensures key(s[m]) != k
      {
        if m > 0 { assert s[m] == s[1..][m - 1]; }
      }
    }
  }

  /** Every element of the input has a key at least that of the sorted head. */
  lemma SortByHeadLeast<T>(s: seq<T>, key: T -> real, j: nat)
    requires j < |s|
    ensures |SortBy(s, key)| > 0 && key(SortBy(s, key)[0]) <= key(s[j])
  {
    var r := SortBy(s, key);
    SortByAscending(s, key);
    assert s[j] in multiset(r);
    var p :| 0 <= p < |r| && r[p] == s[j];
    if p > 0 { assert key(r[0]) <= key(r[p]); }
  }

  /** The head of the stable sort is the first element of the input whose key
      is the least of all keys; `i` is its position in the input. */
  lemma SortByHead<T>(s: seq<T>, key: T -> real) returns (i: nat)
    requires |s| > 0
    ensures i < |s| && |SortBy(s, key)| > 0 && SortBy(s, key)[0] == s[i]
    ensures forall j :: 0 <= j < |s| ==> key(s[i]) <= key(s[j])
    ensures forall j :: 0 <= j < i ==> key(s[i]) < key(s[j])
  {
    var r := SortBy(s, key);
    var h := r[0];
    var k := key(h);
    assert h in multiset(s);
    var j0 :| 0 <= j0 < |s| && s[j0] == h;
    forall j | 0 <= j < |s|
      ensures k <= key(s[j])
    {
      SortByHeadLeast(s, key, j);
    }
    i := WithKeyHead(s, key, k, j0);
    SortByStable(s, key, k);
    assert WithKey(r, key, k)[0] == h by {
      assert r == [h] + r[1..];
    }
  }
}
